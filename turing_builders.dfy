/**
 * The three machines `TuringMachine` builds from nothing: the illustrative scanner, the n-bit
 * majority machine and the "at least one 1" machine. Each builder is a value construction; the
 * lemmas run the machine (module TuringModel) on every binary input and state where it halts.
 */
module TuringBuilders {
  import opened Wrappers
  import opened Text
  import opened TuringModel

  const Binary: set<Symbol> := {"0", "1"}
  const BinaryTape: set<Symbol> := {"0", "1", "_"}

  /** A string of '0' and '1' characters. */
  predicate IsBinaryString(s: string) {
    forall i :: 0 <= i < |s| ==> s[i] == '0' || s[i] == '1'
  }

  /** The number of '1' characters in `s`. */
  function OnesIn(s: string): (k: nat)
    ensures k <= |s|
  {
    if s == [] then 0 else OnesIn(s[..|s| - 1]) + (if s[|s| - 1] == '1' then 1 else 0)
  }

  // ---------------------------------------------------------------- sample_majority_tm

  function SampleMajorityTm(): Machine {
    Machine(
      {"q_start", "q_scan", "q_accept", "q_reject"}, Binary, BinaryTape, "_",
      map[("q_start", "0") := Action("q_scan", "0", "R"),
          ("q_start", "1") := Action("q_scan", "1", "R"),
          ("q_start", "_") := Action("q_accept", "_", "N"),
          ("q_scan", "0") := Action("q_scan", "0", "R"),
          ("q_scan", "1") := Action("q_scan", "1", "R"),
          ("q_scan", "_") := Action("q_accept", "_", "N")],
      "q_start", {"q_accept"}, {"q_reject"})
  }

  /** A left-to-right scanner at position `i`: `q_start` at the first cell, `q_scan` after it. */
  function ScanAt(s: string, i: nat): Config {
    Config(InputTape(s), i, if i == 0 then "q_start" else "q_scan", false)
  }

  /** The scanner's step: it moves right over either bit and accepts on the blank. */
  lemma SampleStep(s: string, i: nat)
    requires IsBinaryString(s) && i <= |s|
    ensures StepConfig(SampleMajorityTm(), ScanAt(s, i)) ==
      if i == |s| then Config(InputTape(s), |s|, "q_accept", true) else ScanAt(s, i + 1)
  {
    var m := SampleMajorityTm();
    var c := ScanAt(s, i);
    if i == |s| {
      assert ReadAt(m, c) == "_";
      assert InputTape(s) - {i} == InputTape(s);
    } else {
      var sym := [s[i]];
      assert ReadAt(m, c) == sym;
      assert sym == "0" || sym == "1";
      assert InputTape(s)[i := sym] == InputTape(s);
    }
  }

  /** `sample_majority_tm` accepts every binary string after |s| + 1 steps, tape untouched. */
  lemma SampleAcceptsAll(s: string, maxSteps: int)
    requires IsBinaryString(s) && maxSteps >= |s| + 1
    ensures var m := SampleMajorityTm();
      RunConfig(m, ResetConfig(m, s), maxSteps) == (Config(InputTape(s), |s|, "q_accept", true), |s| + 1)
  {
    var m := SampleMajorityTm();
    var final := Config(InputTape(s), |s|, "q_accept", true);
    var path := seq(|s| + 1, j requires 0 <= j <= |s| => ScanAt(s, j)) + [final];
    forall j | 0 <= j < |path| - 1 ensures !path[j].halted && StepConfig(m, path[j]) == path[j + 1] {
      SampleStep(s, j);
    }
    RunAlong(m, path, maxSteps);
  }

  // ---------------------------------------------------------------- make_majority_tm_from_length

  datatype BuildError = NonPositiveLength

  /** The state that has seen `k` ones: `f"q_{k}"`. */
  function QName(k: nat): State {
    "q_" + NatToString(k)
  }

  lemma QNameInjective(a: nat, b: nat)
    ensures QName(a) == QName(b) ==> a == b
  {
    if QName(a) == QName(b) {
      assert NatToString(a) == QName(a)[2..] == QName(b)[2..] == NatToString(b);
      DigitsValueOfNatToString(a);
      DigitsValueOfNatToString(b);
    }
  }

  /** No counting state is one of the two final states. */
  lemma QNameNotFinal(k: nat)
    ensures QName(k) != "q_accept" && QName(k) != "q_reject"
  {
    assert IsDigit(QName(k)[2]);
  }

  /** Transition of counting state `q_k` on `sym`. */
  function MajorityAction(n: nat, k: nat, sym: Symbol): Action {
    if sym == "_" then Action(if k > n / 2 then "q_accept" else "q_reject", "_", "N")
    else Action(QName(if sym == "1" then Min(n, k + 1) else k), sym, "R")
  }

  function Min(a: int, b: int): int { if a <= b then a else b }

  function MajorityTransitions(n: nat): map<(State, Symbol), Action> {
    forall a: nat, b: nat ensures QName(a) == QName(b) ==> a == b {
      QNameInjective(a, b);
    }
    map k: nat, sym | 0 <= k <= n && sym in BinaryTape :: (QName(k), sym) := MajorityAction(n, k, sym)
  }

  /** Fails exactly for n <= 0 (Python raises `ValueError`). */
  function MakeMajorityTmFromLength(n: int): (r: Result<Machine, BuildError>)
    ensures r.Failure? <==> n <= 0
    ensures r.Success? ==> && r.value.startState == QName(0)
                           && r.value.acceptStates == {"q_accept"}
                           && r.value.rejectStates == {"q_reject"}
  {
    if n <= 0 then Failure(NonPositiveLength)
    else
      Success(Machine(
        (set k | 0 <= k <= n :: QName(k)) + {"q_accept", "q_reject"}, Binary, BinaryTape, "_",
        MajorityTransitions(n), QName(0), {"q_accept"}, {"q_reject"}))
  }

  /** Every transition of the majority machine. */
  lemma MajorityTransitionAt(n: nat, k: nat, sym: Symbol)
    requires k <= n && sym in BinaryTape
    ensures (QName(k), sym) in MajorityTransitions(n)
    ensures MajorityTransitions(n)[(QName(k), sym)] == MajorityAction(n, k, sym)
  {
    forall a: nat, b: nat ensures QName(a) == QName(b) ==> a == b {
      QNameInjective(a, b);
    }
  }

  /** The majority machine's verdict on a length-n binary input: more than n // 2 ones. */
  function MajorityVerdict(n: nat, s: string): State {
    if OnesIn(s) > n / 2 then "q_accept" else "q_reject"
  }

  lemma OnesInPrefix(s: string, i: nat)
    requires i < |s|
    ensures OnesIn(s[..i + 1]) == OnesIn(s[..i]) + (if s[i] == '1' then 1 else 0)
  {
    assert s[..i + 1][..i] == s[..i];
  }

  /** The configuration after reading the first `i` symbols of `s`. */
  function MajorityAt(s: string, i: nat): Config
    requires i <= |s|
  {
    Config(InputTape(s), i, QName(OnesIn(s[..i])), false)
  }

  /** On the blank after the input, state `q_k` halts with the verdict and leaves the tape alone. */
  lemma MajorityStepBlank(n: nat, s: string)
    requires n > 0 && |s| == n
    ensures var m := MakeMajorityTmFromLength(n).value;
      StepConfig(m, MajorityAt(s, n)) == Config(InputTape(s), n, MajorityVerdict(n, s), true)
  {
    var m := MakeMajorityTmFromLength(n).value;
    var c := MajorityAt(s, n);
    assert s[..n] == s;
    assert ReadAt(m, c) == "_";
    MajorityTransitionAt(n, OnesIn(s), "_");
    assert InputTape(s) - {n} == InputTape(s);
  }

  /** On input symbol `i`, state `q_k` moves right into `q_k'`, k' counting that symbol too. */
  lemma MajorityStepSymbol(n: nat, s: string, i: nat)
    requires n > 0 && |s| == n && IsBinaryString(s) && i < n
    ensures var m := MakeMajorityTmFromLength(n).value;
      StepConfig(m, MajorityAt(s, i)) == MajorityAt(s, i + 1)
  {
    var m := MakeMajorityTmFromLength(n).value;
    var c := MajorityAt(s, i);
    var k := OnesIn(s[..i]);
    var sym := [s[i]];
    assert ReadAt(m, c) == sym;
    assert sym in BinaryTape;
    MajorityTransitionAt(n, k, sym);
    OnesInPrefix(s, i);
    assert InputTape(s)[i := sym] == InputTape(s);
    QNameNotFinal(OnesIn(s[..i + 1]));
  }

  /** The configurations the majority machine passes through on `s`, ending halted with the verdict. */
  function MajorityPath(n: nat, s: string): (path: seq<Config>)
    requires |s| == n
    ensures |path| == n + 2 && path[n + 1] == Config(InputTape(s), n, MajorityVerdict(n, s), true)
    ensures forall j :: 0 <= j <= n ==> path[j] == MajorityAt(s, j)
  {
    seq(n + 1, j requires 0 <= j <= n => MajorityAt(s, j)) + [Config(InputTape(s), n, MajorityVerdict(n, s), true)]
  }

  /** Each configuration on the majority path steps to the next. */
  lemma MajorityPathSteps(n: nat, s: string)
    requires n > 0 && |s| == n && IsBinaryString(s)
    ensures var m, path := MakeMajorityTmFromLength(n).value, MajorityPath(n, s);
      forall j :: 0 <= j < |path| - 1 ==> !path[j].halted && StepConfig(m, path[j]) == path[j + 1]
  {
    var m, path := MakeMajorityTmFromLength(n).value, MajorityPath(n, s);
    forall j | 0 <= j < |path| - 1 ensures !path[j].halted && StepConfig(m, path[j]) == path[j + 1] {
      if j < n {
        MajorityStepSymbol(n, s, j);
      } else {
        MajorityStepBlank(n, s);
      }
    }
  }

  /**
   * `make_majority_tm_from_length(n)` decides majority: on every length-n binary string, run with at
   * least n + 1 steps halts after exactly n + 1 steps, in `q_accept` iff the string has more than
   * n // 2 ones and in `q_reject` otherwise, head on the first blank and tape unchanged.
   */
  lemma MajorityDecides(n: int, s: string, maxSteps: int)
    requires n > 0 && |s| == n && IsBinaryString(s) && maxSteps >= n + 1
    ensures var m := MakeMajorityTmFromLength(n).value;
      var r := RunConfig(m, ResetConfig(m, s), maxSteps);
      && r == (Config(InputTape(s), n, MajorityVerdict(n, s), true), n + 1)
      && (r.0.state == "q_accept" <==> OnesIn(s) > n / 2)
      && (r.0.state == "q_reject" <==> OnesIn(s) <= n / 2)
  {
    var m, path := MakeMajorityTmFromLength(n).value, MajorityPath(n, s);
    MajorityPathSteps(n, s);
    assert s[..0] == [];
    assert path[0] == ResetConfig(m, s);
    RunAlong(m, path, maxSteps);
  }

  // ---------------------------------------------------------------- make_from_automaton_map

  /**
   * The automaton map does not influence the machine: it scans for a '1' and accepts on the first
   * one, rejecting on the blank.
   */
  function MakeFromAutomatonMap(automatonMap: map<string, real>): Machine {
    Machine(
      {"q_start", "q_scan", "q_accept", "q_reject"}, Binary, BinaryTape, "_",
      map[("q_start", "0") := Action("q_scan", "0", "R"),
          ("q_start", "1") := Action("q_accept", "1", "N"),
          ("q_start", "_") := Action("q_reject", "_", "N"),
          ("q_scan", "0") := Action("q_scan", "0", "R"),
          ("q_scan", "1") := Action("q_accept", "1", "N"),
          ("q_scan", "_") := Action("q_reject", "_", "N")],
      "q_start", {"q_accept"}, {"q_reject"})
  }

  /** The index of the first '1' in `s`, if any. */
  function FirstOne(s: string): (r: Option<nat>)
    ensures r.Some? ==> r.value < |s| && s[r.value] == '1' && forall j :: 0 <= j < r.value ==> s[j] != '1'
    ensures r.None? ==> forall j :: 0 <= j < |s| ==> s[j] != '1'
  {
    if s == [] then None
    else if s[0] == '1' then Some(0)
    else match FirstOne(s[1..]) {
      case None => None
      case Some(j) => Some(j + 1)
    }
  }

  /** The scanner's step at position `i`: blank rejects, '1' accepts, '0' moves on. */
  lemma ScanStep(a: map<string, real>, s: string, i: nat)
    requires IsBinaryString(s) && i <= |s|
    ensures var m := MakeFromAutomatonMap(a);
      StepConfig(m, ScanAt(s, i)) ==
        if i == |s| then Config(InputTape(s), i, "q_reject", true)
        else if s[i] == '1' then Config(InputTape(s), i, "q_accept", true)
        else ScanAt(s, i + 1)
  {
    var m := MakeFromAutomatonMap(a);
    var c := ScanAt(s, i);
    if i == |s| {
      assert ReadAt(m, c) == "_";
      assert InputTape(s) - {i} == InputTape(s);
    } else {
      assert ReadAt(m, c) == [s[i]];
      assert InputTape(s)[i := [s[i]]] == InputTape(s);
    }
  }

  /**
   * `make_from_automaton_map`'s machine on a binary string accepts iff the string contains a '1'
   * (halting on the first one) and rejects on reaching the blank otherwise; the map plays no part.
   */
  lemma AutomatonMapMachineDecides(a: map<string, real>, s: string, maxSteps: int)
    requires IsBinaryString(s) && maxSteps >= |s| + 1
    ensures var m := MakeFromAutomatonMap(a);
      var r := RunConfig(m, ResetConfig(m, s), maxSteps);
      && r.0.halted
      && (r.0.state == "q_accept" <==> exists j :: 0 <= j < |s| && s[j] == '1')
      && (r.0.state == "q_reject" <==> forall j :: 0 <= j < |s| ==> s[j] == '0')
      && r.0.tape == InputTape(s)
      && r == match FirstOne(s) {
                case Some(j) => (Config(InputTape(s), j, "q_accept", true), j + 1)
                case None => (Config(InputTape(s), |s|, "q_reject", true), |s| + 1)
              }
  {
    var m := MakeFromAutomatonMap(a);
    var stop := if FirstOne(s).Some? then FirstOne(s).value else |s|;
    var final := if FirstOne(s).Some? then Config(InputTape(s), stop, "q_accept", true)
                 else Config(InputTape(s), |s|, "q_reject", true);
    var path := seq(stop + 1, j requires 0 <= j <= stop => ScanAt(s, j)) + [final];
    forall j | 0 <= j < |path| - 1 ensures !path[j].halted && StepConfig(m, path[j]) == path[j + 1] {
      ScanStep(a, s, j);
    }
    RunAlong(m, path, maxSteps);
  }
}
