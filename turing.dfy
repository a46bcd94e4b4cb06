/**
 * The Turing-machine simulator: a definition fixed at construction and a runtime state (sparse
 * tape, head, current state, halted flag) that `reset`, `_write`, `step` and `run` update in place.
 * Each method is proved against the functions of module TuringModel.
 */
module Turing {
  import opened Wrappers
  import opened TuringModel
  import opened TuringCodec
  import opened IntSets

  /** The symbol at position `i`: `tape.get(i, blank)`. */
  function CellAt(m: Machine, c: Config, i: int): Symbol {
    if i in c.tape then c.tape[i] else m.blank
  }

  /** The symbols at positions left..right, concatenated. */
  function TapeWindow(m: Machine, c: Config, left: int, right: int): string
    decreases right - left
  {
    if right < left then "" else TapeWindow(m, c, left, right - 1) + CellAt(m, c, right)
  }

  /** Every symbol on the tape, and the blank, is one character long (as after `reset`). */
  predicate SingleCharSymbols(m: Machine, c: Config) {
    |m.blank| == 1 && forall i :: i in c.tape ==> |c.tape[i]| == 1
  }

  /**
   * With one-character symbols the window is one character per position, so the index `tape_str`
   * returns for the head points at the head's symbol.
   */
  lemma {:induction false} TapeWindowAt(m: Machine, c: Config, left: int, right: int, i: int)
    requires SingleCharSymbols(m, c) && left <= i <= right
    ensures |TapeWindow(m, c, left, right)| == right - left + 1
    ensures TapeWindow(m, c, left, right)[i - left] == CellAt(m, c, i)[0]
    decreases right - left
  {
    if left == right {
      assert TapeWindow(m, c, left, right - 1) == "";
    } else if i == right {
      TapeWindowAt(m, c, left, right - 1, left);
    } else {
      TapeWindowAt(m, c, left, right - 1, i);
    }
  }

  class TuringMachine {
    const states: set<State>
    const inputAlphabet: set<Symbol>
    const tapeAlphabet: set<Symbol>
    const blank: Symbol
    const transitions: map<(State, Symbol), Action>
    const startState: State
    const acceptStates: set<State>
    const rejectStates: set<State>

    var tape: map<int, Symbol>
    var head: int
    var state: State
    var halted: bool

    /** The fixed definition of this machine. */
    function Definition(): Machine {
      Machine(states, inputAlphabet, tapeAlphabet, blank, transitions, startState, acceptStates, rejectStates)
    }

    /** The runtime state of this machine. */
    function Current(): Config
      reads this
    {
      Config(tape, head, state, halted)
    }

    /** A missing reject set (`None`) stands for the empty set. */
    constructor (states: set<State>, inputAlphabet: set<Symbol>, tapeAlphabet: set<Symbol>, blank: Symbol,
                 transitions: map<(State, Symbol), Action>, startState: State, acceptStates: set<State>,
                 rejectStates: Option<set<State>>)
      ensures Definition() == Machine(states, inputAlphabet, tapeAlphabet, blank, transitions, startState,
                                      acceptStates, if rejectStates.Some? then rejectStates.value else {})
      ensures Current() == Config(map[], 0, startState, false)
    {
      this.states := states;
      this.inputAlphabet := inputAlphabet;
      this.tapeAlphabet := tapeAlphabet;
      this.blank := blank;
      this.transitions := transitions;
      this.startState := startState;
      this.acceptStates := acceptStates;
      this.rejectStates := if rejectStates.Some? then rejectStates.value else {};
      this.tape := map[];
      this.head := 0;
      this.state := startState;
      this.halted := false;
    }

    /** Position i holds the i-th character of the input; the head is at 0 in the start state. */
    method Reset(input: string)
      modifies this
      ensures Current() == ResetConfig(Definition(), input)
      ensures forall i :: i in tape <==> 0 <= i < |input|
      ensures forall i :: 0 <= i < |input| ==> tape[i] == [input[i]]
      ensures head == 0 && state == startState && !halted
    {
      tape := map i | 0 <= i < |input| :: [input[i]];
      head := 0;
      state := startState;
      halted := false;
    }

    /** `_read` */
    function Read(): Symbol
      reads this
    {
      ReadAt(Definition(), Current())
    }

    /** `_write`: the blank removes the head's position, any other symbol is stored there. */
    method Write(symbol: Symbol)
      modifies this`tape
      ensures tape == WriteAt(Definition(), old(Current()), symbol)
      ensures symbol == blank ==> head !in tape
      ensures symbol != blank ==> head in tape && tape[head] == symbol
      ensures forall p :: p != head ==> (p in tape <==> p in old(tape)) && (p in tape ==> tape[p] == old(tape)[p])
    {
      if symbol == blank {
        if head in tape {
          tape := tape - {head};
        }
      } else {
        tape := tape[head := symbol];
      }
    }

    /** One step; returns the state, the head and the symbol under the head afterwards. */
    method Step() returns (st: State, hd: int, sym: Symbol)
      modifies this
      ensures Current() == StepConfig(Definition(), old(Current()))
      ensures st == state && hd == head && sym == Read()
    {
      if halted {
        return state, head, Read();
      }
      var cur := state;
      var read := Read();
      if (cur, read) !in transitions {
        halted := true;
        return state, head, read;
      }
      var a := transitions[(cur, read)];
      Write(a.write);
      if a.dir == "R" {
        head := head + 1;
      } else if a.dir == "L" {
        head := head - 1;
      }
      state := a.next;
      if state in acceptStates || state in rejectStates {
        halted := true;
      }
      return state, head, Read();
    }

    /** Steps until halted or until `maxSteps` steps were taken; the final state and the step count. */
    method Run(maxSteps: int) returns (st: State, steps: nat)
      modifies this
      ensures (Current(), steps) == RunConfig(Definition(), old(Current()), maxSteps)
      ensures st == state
    {
      steps := 0;
      while !halted && steps < maxSteps
        invariant RunConfig(Definition(), old(Current()), maxSteps) ==
          (RunConfig(Definition(), Current(), maxSteps - steps).0, RunConfig(Definition(), Current(), maxSteps - steps).1 + steps)
        decreases maxSteps - steps
      {
        var _, _, _ := Step();
        steps := steps + 1;
      }
      st := state;
    }

    /**
     * `tape_str`: the symbols from max(leftmost key, head - window) to min(rightmost key,
     * head + window) and the head's offset in that string; the blank alone for an empty tape.
     */
    method TapeStr(window: int) returns (s: string, idx: int)
      ensures tape == map[] ==> s == blank && idx == 0
      ensures tape != map[] ==>
        var left := Max(MinOf(tape.Keys), head - window);
        var right := Min(MaxOf(tape.Keys), head + window);
        s == TapeWindow(Definition(), Current(), left, right) && idx == head - left
    {
      if tape == map[] {
        return blank, 0;
      }
      var left := Max(MinOf(tape.Keys), head - window);
      var right := Min(MaxOf(tape.Keys), head + window);
      s := "";
      var i := left;
      while i <= right
        invariant left <= i <= Max(left, right + 1)
        invariant s == TapeWindow(Definition(), Current(), left, i - 1)
        decreases right - i
      {
        s := s + CellAt(Definition(), Current(), i);
        i := i + 1;
      }
      idx := head - left;
    }

    /** `spec()` (and `to_dict()`, which builds the same dictionary). */
    function Spec(): (r: SpecRecord)
      ensures CommaFreeStates(Definition()) ==> DecodeSpec(r) == Definition()
    {
      if CommaFreeStates(Definition()) then
        SnapshotRoundTrip(Definition(), Config(map[], 0, startState, false));
        EncodeSpec(Definition())
      else
        EncodeSpec(Definition())
    }

    /** `to_snapshot()`: `from_snapshot` gets back this very machine and runtime state. */
    function ToSnapshot(): (r: Snapshot)
      reads this
      ensures CommaFreeStates(Definition()) ==> DecodeSnapshot(r) == Some((Definition(), Current()))
    {
      if CommaFreeStates(Definition()) then
        SnapshotRoundTrip(Definition(), Current());
        EncodeSnapshot(Definition(), Current())
      else
        EncodeSnapshot(Definition(), Current())
    }

    /** `from_snapshot`; `null` where Python raises because a tape key is not an integer. */
    static method FromSnapshot(snap: Snapshot) returns (tm: TuringMachine?)
      ensures tm == null <==> DecodeSnapshot(snap).None?
      ensures tm != null ==> fresh(tm) && DecodeSnapshot(snap) == Some((tm.Definition(), tm.Current()))
    {
      var spec := snap.spec;
      var transitions := DecodeDelta(spec.delta);
      tm := new TuringMachine(ElemsOf(spec.q), ElemsOf(spec.sigma), ElemsOf(spec.gamma), spec.blank,
                              transitions, spec.q0, ElemsOf(spec.accept), Some(ElemsOf(spec.reject)));
      var tape := DecodeTape(snap.tape);
      if tape.None? {
        return null;
      }
      tm.tape := tape.value;
      tm.head := snap.head;
      tm.state := snap.state;
      tm.halted := snap.halted;
    }
  }
}
