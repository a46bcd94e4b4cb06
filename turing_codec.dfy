/**
 * The serialised form of a Turing machine: `spec()` (and the identical `to_dict()`), `to_snapshot()`
 * and `from_snapshot()`. Sets become sorted lists, a transition key (state, symbol) becomes the
 * string "state,symbol", tape positions become `str(position)`; decoding splits a transition key
 * on its first comma and parses positions back with `int`.
 */
module TuringCodec {
  import opened Wrappers
  import opened Text
  import opened TuringModel

  /** The dictionary `spec()` returns. */
  datatype SpecRecord = SpecRecord(
    q: seq<State>,
    sigma: seq<Symbol>,
    gamma: seq<Symbol>,
    blank: Symbol,
    q0: State,
    accept: seq<State>,
    reject: seq<State>,
    delta: map<string, Action>)

  /** The dictionary `to_snapshot()` returns. */
  datatype Snapshot = Snapshot(spec: SpecRecord, tape: map<string, Symbol>, head: int, state: State, halted: bool)

  predicate NoComma(s: string) {
    forall i :: 0 <= i < |s| ==> s[i] != ','
  }

  /** f"{s},{r}" */
  function TransitionKey(k: (State, Symbol)): string {
    k.0 + "," + k.1
  }

  /** The index of the first comma at or after `i`. */
  function FirstCommaFrom(k: string, i: nat): (r: Option<nat>)
    requires i <= |k|
    ensures r.Some? ==> i <= r.value < |k| && k[r.value] == ',' && NoComma(k[i..r.value])
    ensures r.None? ==> NoComma(k[i..])
    decreases |k| - i
  {
    if i == |k| then None
    else if k[i] == ',' then Some(i)
    else
      var r := FirstCommaFrom(k, i + 1);
      assert r.Some? ==> k[i..r.value] == [k[i]] + k[i + 1..r.value];
      assert k[i..] == [k[i]] + k[i + 1..];
      r
  }

  /** `k.split(",", 1)` when `k` contains a comma; keys without one are skipped. */
  function SplitKey(k: string): (r: Option<(State, Symbol)>)
    ensures r.Some? ==> TransitionKey(r.value) == k && NoComma(r.value.0)
    ensures r.None? ==> NoComma(k)
  {
    match FirstCommaFrom(k, 0)
    case None => None
    case Some(i) =>
      assert k == k[..i] + "," + k[i + 1..];
      Some((k[..i], k[i + 1..]))
  }

  lemma {:induction false} FirstCommaOfTransitionKey(p: (State, Symbol), i: nat)
    requires NoComma(p.0) && i <= |p.0|
    ensures FirstCommaFrom(TransitionKey(p), i) == Some(|p.0|)
    decreases |p.0| - i
  {
    var k := TransitionKey(p);
    if i < |p.0| {
      assert k[i] == p.0[i];
      FirstCommaOfTransitionKey(p, i + 1);
    } else {
      assert k[i] == ',';
    }
  }

  lemma SplitKeyOfTransitionKey(p: (State, Symbol))
    requires NoComma(p.0)
    ensures SplitKey(TransitionKey(p)) == Some(p)
  {
    var k := TransitionKey(p);
    FirstCommaOfTransitionKey(p, 0);
    assert k[..|p.0|] == p.0;
    assert k[|p.0| + 1..] == p.1;
  }

  /**
   * The transition that owns serialised key `k`: the first split of `k` at a comma that is a key
   * of `t`. Two transitions share a serialised key only when a state name contains ','.
   */
  function KeyOwner(t: map<(State, Symbol), Action>, k: string, i: nat): (r: Option<(State, Symbol)>)
    requires i <= |k|
    ensures r.Some? ==> r.value in t && TransitionKey(r.value) == k
    decreases |k| - i
  {
    if i == |k| then None
    else if k[i] == ',' && (k[..i], k[i + 1..]) in t then
      assert k == k[..i] + "," + k[i + 1..];
      Some((k[..i], k[i + 1..]))
    else KeyOwner(t, k, i + 1)
  }

  lemma {:induction false} KeyOwnerFinds(t: map<(State, Symbol), Action>, p: (State, Symbol), i: nat)
    requires p in t && i <= |p.0|
    ensures KeyOwner(t, TransitionKey(p), i).Some?
    ensures NoComma(p.0) ==> KeyOwner(t, TransitionKey(p), i) == Some(p)
    decreases |p.0| - i
  {
    var k := TransitionKey(p);
    if i == |p.0| {
      assert k[i] == ',' && k[..i] == p.0 && k[i + 1..] == p.1;
    } else {
      assert k[i] == p.0[i];
      KeyOwnerFinds(t, p, i + 1);
    }
  }

  function EncodedKeys(t: map<(State, Symbol), Action>): set<string> {
    set p | p in t :: TransitionKey(p)
  }

  /** The "delta" entry of `spec()`. */
  function EncodeDelta(t: map<(State, Symbol), Action>): (d: map<string, Action>)
    ensures d.Keys == EncodedKeys(t)
  {
    assert forall p :: p in t ==> KeyOwner(t, TransitionKey(p), 0).Some? by {
      forall p | p in t ensures KeyOwner(t, TransitionKey(p), 0).Some? {
        KeyOwnerFinds(t, p, 0);
      }
    }
    map k | k in EncodedKeys(t) :: t[KeyOwner(t, k, 0).value]
  }

  /** The transitions `from_snapshot` rebuilds from a "delta" entry. */
  function DecodeDelta(d: map<string, Action>): map<(State, Symbol), Action> {
    map p | p in (set k | k in d && SplitKey(k).Some? :: SplitKey(k).value) :: d[TransitionKey(p)]
  }

  /** Nothing to load from an empty delta. */
  lemma DecodeDeltaEmpty()
    ensures DecodeDelta(map[]) == map[]
  {
  }

  /** Adding one comma-free entry to a delta adds exactly its pair to the loaded transitions. */
  lemma DecodeDeltaUpdate(d: map<string, Action>, p: (State, Symbol), a: Action)
    requires NoComma(p.0)
    ensures DecodeDelta(d[TransitionKey(p) := a]) == DecodeDelta(d)[p := a]
  {
    var k := TransitionKey(p);
    SplitKeyOfTransitionKey(p);
    var d' := d[k := a];
    var lhs := DecodeDelta(d');
    var rhs := DecodeDelta(d)[p := a];
    forall q | q in lhs ensures q in rhs && lhs[q] == rhs[q] {
      var k' :| k' in d' && SplitKey(k') == Some(q);
      if q != p {
        assert k' != k;
        assert k' in d;
      }
    }
    forall q | q in rhs ensures q in lhs {
      if q != p {
        var k' :| k' in d && SplitKey(k') == Some(q);
        assert k' in d';
      }
    }
  }

  /** `{str(k): v for k, v in tape.items()}` */
  function EncodeTape(tape: map<int, Symbol>): (r: map<string, Symbol>)
    ensures forall i :: i in tape ==> IntToString(i) in r && r[IntToString(i)] == tape[i]
    ensures forall k :: k in r ==> exists i :: i in tape && k == IntToString(i)
  {
    assert forall a, b :: IntToString(a) == IntToString(b) ==> a == b by {
      forall a, b | IntToString(a) == IntToString(b) ensures a == b {
        IntToStringInjective(a, b);
      }
    }
    map i | i in tape :: IntToString(i) := tape[i]
  }

  /** `{int(k): v for k, v in tape.items()}`; `None` when a key does not parse (Python raises). */
  function DecodeTape(t: map<string, Symbol>): (r: Option<map<int, Symbol>>)
    ensures r.None? <==> exists k :: k in t && ParseInt(k).None?
    ensures r.Some? ==> forall i :: i in r.value ==> IntToString(i) in t && r.value[i] == t[IntToString(i)]
    ensures r.Some? ==> forall k :: k in t ==> ParseInt(k).Some? && ParseInt(k).value in r.value
  {
    if forall k :: k in t ==> ParseInt(k).Some? then
      Some(map i | i in (set k | k in t :: ParseInt(k).value) :: t[IntToString(i)])
    else
      None
  }

  function EncodeSpec(m: Machine): SpecRecord {
    SpecRecord(
      SortedElems(m.states), SortedElems(m.inputAlphabet), SortedElems(m.tapeAlphabet),
      m.blank, m.startState, SortedElems(m.acceptStates), SortedElems(m.rejectStates),
      EncodeDelta(m.transitions))
  }

  /** Python `set(list)`. */
  function ElemsOf(s: seq<string>): set<string> {
    set x | x in s
  }

  function DecodeSpec(r: SpecRecord): Machine {
    Machine(
      ElemsOf(r.q), ElemsOf(r.sigma), ElemsOf(r.gamma), r.blank,
      DecodeDelta(r.delta), r.q0, ElemsOf(r.accept), ElemsOf(r.reject))
  }

  function EncodeSnapshot(m: Machine, c: Config): Snapshot {
    Snapshot(EncodeSpec(m), EncodeTape(c.tape), c.head, c.state, c.halted)
  }

  function DecodeSnapshot(s: Snapshot): Option<(Machine, Config)> {
    match DecodeTape(s.tape)
    case None => None
    case Some(tape) => Some((DecodeSpec(s.spec), Config(tape, s.head, s.state, s.halted)))
  }

  /** The condition under which the codec is lossless: no state that has a transition holds ','. */
  predicate CommaFreeStates(m: Machine) {
    forall p :: p in m.transitions ==> NoComma(p.0)
  }

  lemma DeltaRoundTrip(t: map<(State, Symbol), Action>)
    requires forall p :: p in t ==> NoComma(p.0)
    ensures DecodeDelta(EncodeDelta(t)) == t
  {
    var d := EncodeDelta(t);
    var back := DecodeDelta(d);
    forall p | p in t ensures p in back && back[p] == t[p] {
      SplitKeyOfTransitionKey(p);
      KeyOwnerFinds(t, p, 0);
      assert TransitionKey(p) in d;
    }
    forall p | p in back ensures p in t {
      var k :| k in d && SplitKey(k).Some? && SplitKey(k).value == p;
      var q :| q in t && TransitionKey(q) == k;
      SplitKeyOfTransitionKey(q);
    }
  }

  /** Every key `EncodeTape` writes parses. */
  lemma EncodedTapeParses(tape: map<int, Symbol>)
    ensures DecodeTape(EncodeTape(tape)).Some?
  {
    var e := EncodeTape(tape);
    forall k | k in e ensures ParseInt(k).Some? {
      var i :| i in tape && k == IntToString(i);
      ParseIntToString(i);
    }
  }

  /**
   * Decoding inverts encoding, stated on what the two directions promise: `e` holds `str(i)` for
   * exactly the positions of `tape`, and `back` holds `int(k)` for exactly the keys of `e`.
   */
  lemma TapeInverse(tape: map<int, Symbol>, e: map<string, Symbol>, back: map<int, Symbol>)
    requires forall i :: i in tape ==> IntToString(i) in e && e[IntToString(i)] == tape[i]
    requires forall k :: k in e ==> exists i :: i in tape && k == IntToString(i)
    requires forall i :: i in back ==> IntToString(i) in e && back[i] == e[IntToString(i)]
    requires forall k :: k in e ==> ParseInt(k).Some? && ParseInt(k).value in back
    ensures back == tape
  {
    forall i | i in tape ensures i in back && back[i] == tape[i] {
      ParseIntToString(i);
    }
    forall i | i in back ensures i in tape {
      var j :| j in tape && IntToString(i) == IntToString(j);
      IntToStringInjective(i, j);
    }
  }

  lemma TapeRoundTrip(tape: map<int, Symbol>)
    ensures DecodeTape(EncodeTape(tape)) == Some(tape)
  {
    EncodedTapeParses(tape);
    TapeInverse(tape, EncodeTape(tape), DecodeTape(EncodeTape(tape)).value);
  }

  /**
   * `from_snapshot(to_snapshot(tm))` rebuilds the same machine in the same configuration, provided
   * no state with a transition contains ','.
   */
  lemma SnapshotRoundTrip(m: Machine, c: Config)
    requires CommaFreeStates(m)
    ensures DecodeSnapshot(EncodeSnapshot(m, c)) == Some((m, c))
  {
    DeltaRoundTrip(m.transitions);
    TapeRoundTrip(c.tape);
    SortedElemsAsSet(m.states);
    SortedElemsAsSet(m.inputAlphabet);
    SortedElemsAsSet(m.tapeAlphabet);
    SortedElemsAsSet(m.acceptStates);
    SortedElemsAsSet(m.rejectStates);
  }

  /** A state name holding ',' breaks the round trip: the key "a,b,c" splits as ("a", "b,c"). */
  lemma CommaInStateBreaksRoundTrip()
    ensures var m := Machine({"a,b"}, {}, {}, "_", map[("a,b", "c") := Action("a,b", "c", "N")],
                             "a,b", {}, {});
      DecodeSpec(EncodeSpec(m)) != m
  {
    var t := map[("a,b", "c") := Action("a,b", "c", "N")];
    var d := EncodeDelta(t);
    assert TransitionKey(("a,b", "c")) == "a,b,c";
    assert EncodedKeys(t) == {"a,b,c"};
    SplitKeyOfTransitionKey(("a", "b,c"));
    assert TransitionKey(("a", "b,c")) == "a,b,c";
    assert ("a", "b,c") in DecodeDelta(d);
  }
}
