/**
 * The Turing-machine semantics of `TuringMachine` as values: the static definition, the runtime
 * configuration (sparse tape, head, current state, halted flag) and the effect of `_read`,
 * `_write`, `step` and `run` on a configuration. The class in module Turing is proved against
 * these functions, and the builders' acceptance proofs are about them.
 */
module TuringModel {

  type State = string
  type Symbol = string

  /** The right-hand side of a transition: next state, symbol to write, head direction. */
  datatype Action = Action(next: State, write: Symbol, dir: string)

  /** The definition of a machine, fixed after construction. */
  datatype Machine = Machine(
    states: set<State>,
    inputAlphabet: set<Symbol>,
    tapeAlphabet: set<Symbol>,
    blank: Symbol,
    transitions: map<(State, Symbol), Action>,
    startState: State,
    acceptStates: set<State>,
    rejectStates: set<State>)

  /** The runtime part: positions absent from `tape` hold the blank symbol. */
  datatype Config = Config(tape: map<int, Symbol>, head: int, state: State, halted: bool)

  /** The tape `reset` builds from an input string: one single-character symbol per position. */
  function InputTape(input: string): (t: map<int, Symbol>)
    ensures forall i :: i in t <==> 0 <= i < |input|
    ensures forall i :: 0 <= i < |input| ==> t[i] == [input[i]]
  {
    map i | 0 <= i < |input| :: [input[i]]
  }

  function ResetConfig(m: Machine, input: string): Config {
    Config(InputTape(input), 0, m.startState, false)
  }

  /** The symbol under the head. */
  function ReadAt(m: Machine, c: Config): Symbol {
    if c.head in c.tape then c.tape[c.head] else m.blank
  }

  /** The tape after writing `sym` under the head; writing the blank removes the position. */
  function WriteAt(m: Machine, c: Config, sym: Symbol): map<int, Symbol> {
    if sym == m.blank then c.tape - {c.head} else c.tape[c.head := sym]
  }

  /** 'R' moves right, 'L' moves left, any other direction leaves the head where it is. */
  function Move(head: int, dir: string): int {
    if dir == "R" then head + 1 else if dir == "L" then head - 1 else head
  }

  predicate IsFinal(m: Machine, s: State) {
    s in m.acceptStates || s in m.rejectStates
  }

  /** One step of the machine. */
  function StepConfig(m: Machine, c: Config): Config {
    if c.halted then c
    else
      var key := (c.state, ReadAt(m, c));
      if key !in m.transitions then c.(halted := true)
      else
        var a := m.transitions[key];
        Config(WriteAt(m, c, a.write), Move(c.head, a.dir), a.next, IsFinal(m, a.next))
  }

  /**
   * Steps until the machine halts or `maxSteps` steps were taken; the final configuration and the
   * number of steps taken.
   */
  function RunConfig(m: Machine, c: Config, maxSteps: int): (r: (Config, nat))
    ensures maxSteps <= 0 ==> r == (c, 0)
    ensures c.halted ==> r == (c, 0)
    ensures r.1 <= maxSteps || r.1 == 0
    ensures r.1 < maxSteps ==> r.0.halted
    decreases maxSteps
  {
    if c.halted || maxSteps <= 0 then (c, 0)
    else
      var rest := RunConfig(m, StepConfig(m, c), maxSteps - 1);
      (rest.0, rest.1 + 1)
  }

  /** Reading a position the tape does not hold yields the blank. */
  lemma ReadUnwritten(m: Machine, c: Config)
    requires c.head !in c.tape
    ensures ReadAt(m, c) == m.blank
  {
  }

  /** After a write the head reads the written symbol, and every other position is unchanged. */
  lemma ReadAfterWrite(m: Machine, c: Config, sym: Symbol)
    ensures ReadAt(m, c.(tape := WriteAt(m, c, sym))) == sym
    ensures sym == m.blank ==> c.head !in WriteAt(m, c, sym)
    ensures sym != m.blank ==> c.head in WriteAt(m, c, sym)
    ensures forall p :: p != c.head ==>
      (p in WriteAt(m, c, sym) <==> p in c.tape) &&
      (p in c.tape ==> WriteAt(m, c, sym)[p] == c.tape[p])
  {
  }

  /**
   * Writing back the symbol just read leaves the tape exactly as it was, unless the tape held the
   * blank explicitly under the head (an input string may contain the blank character): then the
   * write removes that key.
   */
  lemma WriteBackKeepsTape(m: Machine, c: Config)
    requires c.head in c.tape ==> c.tape[c.head] != m.blank
    ensures WriteAt(m, c, ReadAt(m, c)) == c.tape
  {
  }

  /** A halted machine does not move. */
  lemma StepHalted(m: Machine, c: Config)
    requires c.halted
    ensures StepConfig(m, c) == c
  {
  }

  /** No transition for (state, read symbol): the machine halts and nothing else changes. */
  lemma StepUndefined(m: Machine, c: Config)
    requires !c.halted && (c.state, ReadAt(m, c)) !in m.transitions
    ensures StepConfig(m, c) == c.(halted := true)
  {
  }

  /** A defined transition writes, moves, changes state and halts exactly on a final state. */
  lemma StepDefined(m: Machine, c: Config)
    requires !c.halted && (c.state, ReadAt(m, c)) in m.transitions
    ensures var a := m.transitions[(c.state, ReadAt(m, c))];
      var c' := StepConfig(m, c);
      && ReadAt(m, c.(tape := c'.tape)) == a.write
      && c'.head == (if a.dir == "R" then c.head + 1 else if a.dir == "L" then c.head - 1 else c.head)
      && c'.state == a.next
      && (c'.halted <==> a.next in m.acceptStates || a.next in m.rejectStates)
  {
    ReadAfterWrite(m, c, m.transitions[(c.state, ReadAt(m, c))].write);
  }

  /**
   * A run that follows a path: when each configuration but the last is running and steps to the
   * next one, and the last has halted, `run` from the first ends at the last after |path| - 1 steps.
   */
  lemma {:induction false} RunAlong(m: Machine, path: seq<Config>, maxSteps: int)
    requires |path| > 0 && maxSteps >= |path| - 1
    requires forall j :: 0 <= j < |path| - 1 ==> !path[j].halted && StepConfig(m, path[j]) == path[j + 1]
    requires path[|path| - 1].halted
    ensures RunConfig(m, path[0], maxSteps) == (path[|path| - 1], |path| - 1)
    decreases |path|
  {
    if |path| > 1 {
      var rest := path[1..];
      assert forall j :: 0 <= j < |rest| ==> rest[j] == path[j + 1];
      RunAlong(m, rest, maxSteps - 1);
    }
  }
}
