/** State and transition coverage of an exploration campaign: canonical texts get consecutive
    numbers, and every move between consecutive observations of a run is counted. */
module Coverages {
  import opened Schedules
  import opened Counting
  import opened Values
  import opened ItfCodec
  import opened CanonicalStates

  const COVERAGE_BYTES: nat := 8 * 1048576
  const ROW_BYTES: nat := 128

  /** One observation of a run: the position it claims, and the state it shows. */
  datatype Observation = Observation(afterSteps: nat, state: Json)

  /** What a campaign looks at: its base variables, the instrumentation it takes away, and how its
      big-integer library reads numerals that are not canonical. */
  datatype Lens = Lens(variables: set<string>, ignored: set<string>, lenient: string -> Result<int>)

  /** The base variables of a decoded state that has exactly the declared variables. */
  function Projected(lens: Lens, state: Json): Option<VarState> {
    match DecodeState(state, lens.lenient)
    case Malformed => None
    case Ok(s) =>
      if |s| != |lens.variables| + |lens.ignored| || !(lens.ignored <= s.Keys) then None
      else
        var p := s - lens.ignored;
        if lens.variables <= p.Keys then Some(p) else None
  }

  /** The canonical text of an observed state, unless decoding, projection or the canonicaliser refuse it. */
  function TextOf(lens: Lens, state: Json): Option<string> {
    var p := Projected(lens, state);
    if p.None? then None
    else
      match CanonicalState(p.value)
      case Refused => None
      case Text(text) => Some(text)
  }

  datatype Edge = Edge(from: nat, to: nat)

  datatype Move = Move(from: string, to: string)

  predicate Readable(lens: Lens, observations: seq<Observation>) {
    forall i :: 0 <= i < |observations| ==> observations[i].afterSteps == i && TextOf(lens, observations[i].state).Some?
  }

  function Texts(lens: Lens, observations: seq<Observation>): (texts: seq<string>)
    requires Readable(lens, observations)
    ensures |texts| == |observations|
    ensures forall i :: 0 <= i < |texts| ==> texts[i] == TextOf(lens, observations[i].state).value
  {
    seq(|observations|, i requires 0 <= i < |observations| => TextOf(lens, observations[i].state).value)
  }

  function Moves(texts: seq<string>): (moves: seq<Move>)
    ensures |moves| == if texts == [] then 0 else |texts| - 1
  {
    if texts == [] then [] else seq(|texts| - 1, i requires 0 <= i < |texts| - 1 => Move(texts[i], texts[i + 1]))
  }

  lemma {:induction false} MovesAppend(texts: seq<string>, text: string)
    ensures Moves(texts + [text]) == Moves(texts) + if texts == [] then [] else [Move(texts[|texts| - 1], text)]
  {
  }

  // ----- sums -------------------------------------------------------------------------------

  ghost function TotalCount<K(!new)>(counts: map<K, nat>): nat {
    if counts == map[] then 0
    else var e :| e in counts; counts[e] + TotalCount(counts - {e})
  }

  lemma {:induction false} TotalWithout<K(!new)>(counts: map<K, nat>, e: K)
    requires e in counts
    ensures TotalCount(counts) == counts[e] + TotalCount(counts - {e})
    decreases |counts|
  {
    var x :| x in counts && TotalCount(counts) == counts[x] + TotalCount(counts - {x});
    if x != e {
      assert |counts - {x}| < |counts| by { assert (counts - {x}).Keys == counts.Keys - {x}; }
      TotalWithout(counts - {x}, e);
      assert counts - {x} - {e} == counts - {e} - {x};
      assert |counts - {e}| < |counts| by { assert (counts - {e}).Keys == counts.Keys - {e}; }
      TotalWithout(counts - {e}, x);
    }
  }

  function CountAt<K>(counts: map<K, nat>, e: K): nat { if e in counts then counts[e] else 0 }

  lemma {:induction false} TotalAfterBump<K(!new)>(counts: map<K, nat>, e: K)
    ensures TotalCount(counts[e := CountAt(counts, e) + 1]) == TotalCount(counts) + 1
  {
    var bumped := counts[e := CountAt(counts, e) + 1];
    TotalWithout(bumped, e);
    assert bumped - {e} == counts - {e};
    if e in counts { TotalWithout(counts, e); } else { assert counts - {e} == counts; }
  }

  ghost function StateBytes(stateRows: seq<string>): nat {
    if stateRows == [] then 0 else StateBytes(stateRows[..|stateRows| - 1]) + |stateRows[|stateRows| - 1]| + ROW_BYTES
  }

  /** What the coverage counts against its bound. */
  ghost function UsedBytes(stateRows: seq<string>, transitions: map<Edge, nat>): nat {
    StateBytes(stateRows) + ROW_BYTES * |transitions|
  }

  // ----- what the maps mean -------------------------------------------------------------------

  /** The numbering is one to one onto the rows, in order of first appearance. */
  ghost predicate Numbered(states: map<string, nat>, stateRows: seq<string>) {
    && (forall t :: t in states ==> states[t] < |stateRows| && stateRows[states[t]] == t)
    && (forall i :: 0 <= i < |stateRows| ==> stateRows[i] in states && states[stateRows[i]] == i)
  }

  ghost function CountOf(moves: seq<Move>, m: Move): nat { multiset(moves)[m] }

  ghost predicate EdgesOf(states: map<string, nat>, transitions: map<Edge, nat>, moves: seq<Move>) {
    forall k :: 0 <= k < |moves| ==>
      moves[k].from in states && moves[k].to in states && Edge(states[moves[k].from], states[moves[k].to]) in transitions
  }

  ghost predicate Tallied(stateRows: seq<string>, transitions: map<Edge, nat>, moves: seq<Move>) {
    forall e :: e in transitions ==>
      e.from < |stateRows| && e.to < |stateRows|
      && transitions[e] == CountOf(moves, Move(stateRows[e.from], stateRows[e.to])) > 0
  }

  ghost predicate Sound(states: map<string, nat>, stateRows: seq<string>, transitions: map<Edge, nat>, bytes: nat, moves: seq<Move>) {
    && Numbered(states, stateRows)
    && EdgesOf(states, transitions, moves)
    && Tallied(stateRows, transitions, moves)
    && TotalCount(transitions) == |moves|
    && bytes == UsedBytes(stateRows, transitions) <= COVERAGE_BYTES
  }

  lemma {:induction false} AddState(states: map<string, nat>, stateRows: seq<string>, transitions: map<Edge, nat>, bytes: nat,
                                    moves: seq<Move>, text: string)
    requires Sound(states, stateRows, transitions, bytes, moves) && text !in states
    requires bytes + |text| + ROW_BYTES <= COVERAGE_BYTES
    ensures Sound(states[text := |stateRows|], stateRows + [text], transitions, bytes + |text| + ROW_BYTES, moves)
  {
    hide TotalCount, CountOf;
    var rows := stateRows + [text];
    assert rows[..|rows| - 1] == stateRows;
    forall e | e in transitions ensures rows[e.from] == stateRows[e.from] && rows[e.to] == stateRows[e.to] { }
  }

  lemma {:induction false} AddMove(states: map<string, nat>, stateRows: seq<string>, transitions: map<Edge, nat>, bytes: nat,
                                   moves: seq<Move>, e: Edge)
    requires Sound(states, stateRows, transitions, bytes, moves) && e.from < |stateRows| && e.to < |stateRows|
    requires e !in transitions ==> bytes + ROW_BYTES <= COVERAGE_BYTES
    ensures Sound(states, stateRows, transitions[e := CountAt(transitions, e) + 1],
                  bytes + (if e in transitions then 0 else ROW_BYTES), moves + [Move(stateRows[e.from], stateRows[e.to])])
  {
    hide TotalCount, StateBytes, EdgesOf, Tallied, Numbered;
    TotalAfterBump(transitions, e);
    EdgeAdded(states, stateRows, transitions, moves, e);
    MoveTallied(states, stateRows, transitions, moves, e);
    var bumped := transitions[e := CountAt(transitions, e) + 1];
    assert bumped.Keys == transitions.Keys + {e};
    assert |bumped| == |bumped.Keys| && |transitions| == |transitions.Keys|;
  }

  lemma {:induction false} EdgeAdded(states: map<string, nat>, stateRows: seq<string>, transitions: map<Edge, nat>, moves: seq<Move>, e: Edge)
    requires Numbered(states, stateRows) && EdgesOf(states, transitions, moves) && e.from < |stateRows| && e.to < |stateRows|
    ensures EdgesOf(states, transitions[e := CountAt(transitions, e) + 1], moves + [Move(stateRows[e.from], stateRows[e.to])])
  {
  }

  lemma {:induction false} MoveTallied(states: map<string, nat>, stateRows: seq<string>, transitions: map<Edge, nat>, moves: seq<Move>, e: Edge)
    requires Numbered(states, stateRows) && EdgesOf(states, transitions, moves) && Tallied(stateRows, transitions, moves)
    requires e.from < |stateRows| && e.to < |stateRows|
    ensures Tallied(stateRows, transitions[e := CountAt(transitions, e) + 1], moves + [Move(stateRows[e.from], stateRows[e.to])])
  {
    hide EdgesOf;
    var m := Move(stateRows[e.from], stateRows[e.to]);
    var after := moves + [m];
    assert multiset(after) == multiset(moves) + multiset{m};
    if e !in transitions { Uncounted(states, stateRows, transitions, moves, e); }
    assert CountOf(after, m) == CountAt(transitions, e) + 1;
    forall f | f in transitions && f != e
      ensures CountOf(after, Move(stateRows[f.from], stateRows[f.to])) == CountOf(moves, Move(stateRows[f.from], stateRows[f.to]))
    {
      assert states[stateRows[f.from]] == f.from && states[stateRows[f.to]] == f.to;
      assert Move(stateRows[f.from], stateRows[f.to]) != m;
    }
  }

  lemma {:induction false} Uncounted(states: map<string, nat>, stateRows: seq<string>, transitions: map<Edge, nat>, moves: seq<Move>, e: Edge)
    requires Numbered(states, stateRows) && EdgesOf(states, transitions, moves)
    requires e.from < |stateRows| && e.to < |stateRows| && e !in transitions
    ensures CountOf(moves, Move(stateRows[e.from], stateRows[e.to])) == 0
  {
    var m := Move(stateRows[e.from], stateRows[e.to]);
    assert Edge(states[m.from], states[m.to]) == e;
    assert forall k :: 0 <= k < |moves| ==> moves[k] != m;
  }

  lemma {:induction false} NumberedTexts(states: map<string, nat>, stateRows: seq<string>, transitions: map<Edge, nat>, bytes: nat,
                                         moves: seq<Move>, text: string)
    requires Sound(states, stateRows, transitions, bytes, moves)
    ensures text in states <==> text in stateRows
    ensures bytes == UsedBytes(stateRows, transitions)
    ensures text in states ==> states[text] < |stateRows| && stateRows[states[text]] == text
  {
    hide TotalCount, StateBytes, EdgesOf, Tallied;
  }

  /** The last of these texts finds no room: it is new and its row does not fit, or it is reached by a
      new move and that row does not fit. */
  ghost predicate NoRoom(texts: seq<string>, stateRows: seq<string>, transitions: map<Edge, nat>) {
    && texts != []
    && (var bytes, text := UsedBytes(stateRows, transitions), texts[|texts| - 1];
        || (text !in stateRows && bytes + |text| + ROW_BYTES > COVERAGE_BYTES)
        || (|texts| > 1 && bytes + ROW_BYTES > COVERAGE_BYTES && SomeNewMove(texts[|texts| - 2], text, stateRows, transitions)))
  }

  ghost predicate SomeNewMove(from: string, to: string, stateRows: seq<string>, transitions: map<Edge, nat>) {
    exists e :: NewMove(e, from, to, stateRows, transitions)
  }

  ghost predicate NewMove(e: Edge, from: string, to: string, stateRows: seq<string>, transitions: map<Edge, nat>) {
    e !in transitions && e.from < |stateRows| && e.to < |stateRows| && stateRows[e.from] == from && stateRows[e.to] == to
  }

  /** Somewhere along these observations, all readable so far, there is no room. */
  ghost predicate Crowds(lens: Lens, observations: seq<Observation>, stateRows: seq<string>, transitions: map<Edge, nat>) {
    exists n, texts :: 0 < n <= |observations| && Seen(lens, observations, n, texts) && NoRoom(texts, stateRows, transitions)
  }

  lemma {:induction false} StateCrowds(lens: Lens, observations: seq<Observation>, i: nat, texts: seq<string>, stateRows: seq<string>,
                                       transitions: map<Edge, nat>)
    requires i < |observations| && Seen(lens, observations, i, texts)
    requires observations[i].afterSteps == i && TextOf(lens, observations[i].state).Some?
    requires var text := TextOf(lens, observations[i].state).value;
             text !in stateRows && UsedBytes(stateRows, transitions) + |text| + ROW_BYTES > COVERAGE_BYTES
    ensures Crowds(lens, observations, stateRows, transitions)
  {
    hide Seen, TextOf, UsedBytes;
    SeenNext(lens, observations, i, texts);
    var seen := texts + [TextOf(lens, observations[i].state).value];
    assert NoRoom(seen, stateRows, transitions);
  }

  lemma {:induction false} MoveCrowds(lens: Lens, observations: seq<Observation>, i: nat, texts: seq<string>, stateRows: seq<string>,
                                      transitions: map<Edge, nat>, e: Edge)
    requires 0 < i < |observations| && |texts| == i && Seen(lens, observations, i, texts)
    requires observations[i].afterSteps == i && TextOf(lens, observations[i].state).Some?
    requires NewMove(e, texts[i - 1], TextOf(lens, observations[i].state).value, stateRows, transitions)
    requires UsedBytes(stateRows, transitions) + ROW_BYTES > COVERAGE_BYTES
    ensures Crowds(lens, observations, stateRows, transitions)
  {
    hide Seen, TextOf, UsedBytes, NewMove;
    SeenNext(lens, observations, i, texts);
    var seen := texts + [TextOf(lens, observations[i].state).value];
    assert NoRoom(seen, stateRows, transitions);
  }

  /** What became of one run's observations. */
  datatype Verdict = Covered | Unreadable | Full

  class Coverage {
    const lens: Lens
    var states: map<string, nat>
    var stateRows: seq<string>
    var transitions: map<Edge, nat>
    var bytes: nat
    ghost var moves: seq<Move>

    ghost predicate Valid()
      reads this
    {
      Sound(states, stateRows, transitions, bytes, moves)
    }

    constructor (lens: Lens)
      ensures Valid() && this.lens == lens && stateRows == [] && moves == [] && transitions == map[]
    {
      this.lens := lens;
      states, stateRows, transitions, bytes, moves := map[], [], map[], 0, [];
    }

    /** Gives a text its number, old or new, unless the byte bound forbids a new one. */
    method Number(text: string) returns (id: Option<nat>)
      requires Valid()
      modifies this
      ensures Valid() && moves == old(moves)
      ensures stateRows == old(stateRows) + if id.Some? && text !in old(stateRows) then [text] else []
      ensures id.Some? ==> id.value < |stateRows| && stateRows[id.value] == text
      ensures id.None? <==> text !in old(stateRows) && UsedBytes(old(stateRows), old(transitions)) + |text| + ROW_BYTES > COVERAGE_BYTES
      ensures transitions == old(transitions)
    {
      hide Sound, UsedBytes;
      NumberedTexts(states, stateRows, transitions, bytes, moves, text);
      if text !in states {
        if bytes + |text| + ROW_BYTES > COVERAGE_BYTES { return None; }
        AddState(states, stateRows, transitions, bytes, moves, text);
        bytes := bytes + |text| + ROW_BYTES;
        states := states[text := |stateRows|];
        stateRows := stateRows + [text];
      }
      return Some(states[text]);
    }

    /** Counts one move between numbered states. */
    method Count(e: Edge) returns (fits: bool)
      requires Valid() && e.from < |stateRows| && e.to < |stateRows|
      modifies this
      ensures Valid() && stateRows == old(stateRows)
      ensures moves == old(moves) + if fits then [Move(stateRows[e.from], stateRows[e.to])] else []
      ensures !fits <==> e !in old(transitions) && UsedBytes(stateRows, old(transitions)) + ROW_BYTES > COVERAGE_BYTES
      ensures !fits ==> transitions == old(transitions)
    {
      hide Sound, UsedBytes;
      NumberedTexts(states, stateRows, transitions, bytes, moves, "");
      if e !in transitions && bytes + ROW_BYTES > COVERAGE_BYTES { return false; }
      AddMove(states, stateRows, transitions, bytes, moves, e);
      bytes := bytes + if e in transitions then 0 else ROW_BYTES;
      transitions := transitions[e := CountAt(transitions, e) + 1];
      moves := moves + [Move(stateRows[e.from], stateRows[e.to])];
      return true;
    }

    /** Adds the observations of one run. A run stopped half way keeps what it has added. */
    method Cover(observations: seq<Observation>) returns (verdict: Verdict)
      requires Valid()
      modifies this
      ensures Valid() && old(moves) <= moves && old(stateRows) <= stateRows
      ensures verdict == Unreadable ==> !Readable(lens, observations)
      ensures verdict == Full ==> Crowds(lens, observations, stateRows, transitions)
      ensures verdict == Covered ==>
                Readable(lens, observations) && moves == old(moves) + Moves(Texts(lens, observations))
                && Elements(stateRows) == Elements(old(stateRows)) + Elements(Texts(lens, observations))
    {
      hide Sound, Moves, Elements, Readable, Texts, TextOf, UsedBytes, Seen, Crowds;
      var prior: Option<nat> := None;
      ghost var texts: seq<string> := [];
      NothingSeen(lens, observations);
      assert Elements(stateRows) == Elements(old(stateRows)) + Elements([]);
      for i := 0 to |observations|
        invariant Valid() && old(stateRows) <= stateRows
        invariant |texts| == i && Seen(lens, observations, i, texts)
        invariant moves == old(moves) + Moves(texts)
        invariant Elements(stateRows) == Elements(old(stateRows)) + Elements(texts)
        invariant prior.Some? <==> i > 0
        invariant i > 0 ==> prior.value < |stateRows| && stateRows[prior.value] == texts[i - 1]
      {
        var seen := observations[i];
        var shown := TextOf(lens, seen.state);
        if seen.afterSteps != i || shown.None? {
          NotReadable(lens, observations, i);
          return Unreadable;
        }
        var text := shown.value;
        ghost var before := stateRows;
        SeenNext(lens, observations, i, texts);
        MovesAppend(texts, text);
        var id := Number(text);
        if id.None? {
          assert stateRows == before;
          StateCrowds(lens, observations, i, texts, stateRows, transitions);
          return Full;
        }
        Appended(before, text, stateRows);
        Appended(texts, text, texts + [text]);
        if prior.Some? {
          var fits := Count(Edge(prior.value, id.value));
          if !fits {
            MoveCrowds(lens, observations, i, texts, stateRows, transitions, Edge(prior.value, id.value));
            return Full;
          }
        }
        prior, texts := id, texts + [text];
      }
      AllSeen(lens, observations, texts);
      return Covered;
    }
  }

  /** `texts` are the texts of the first `i` observations, all in their places. */
  ghost predicate Seen(lens: Lens, observations: seq<Observation>, i: nat, texts: seq<string>)
    requires i <= |observations|
  {
    Readable(lens, observations[..i]) && texts == Texts(lens, observations[..i])
  }

  lemma {:induction false} NothingSeen(lens: Lens, observations: seq<Observation>)
    ensures Seen(lens, observations, 0, []) && Moves([]) == [] && Elements<string>([]) == {}
  {
    hide TextOf;
  }

  lemma {:induction false} SeenNext(lens: Lens, observations: seq<Observation>, i: nat, texts: seq<string>)
    requires i < |observations| && Seen(lens, observations, i, texts)
    requires observations[i].afterSteps == i && TextOf(lens, observations[i].state).Some?
    ensures Seen(lens, observations, i + 1, texts + [TextOf(lens, observations[i].state).value])
  {
    hide TextOf;
    assert observations[..i + 1] == observations[..i] + [observations[i]];
  }

  lemma {:induction false} NotReadable(lens: Lens, observations: seq<Observation>, i: nat)
    requires i < |observations| && (observations[i].afterSteps != i || TextOf(lens, observations[i].state).None?)
    ensures !Readable(lens, observations)
  {
    hide TextOf;
  }

  lemma {:induction false} AllSeen(lens: Lens, observations: seq<Observation>, texts: seq<string>)
    requires Seen(lens, observations, |observations|, texts)
    ensures Readable(lens, observations) && texts == Texts(lens, observations)
  {
    hide TextOf;
    assert observations[..|observations|] == observations;
  }

  lemma {:induction false} Appended(before: seq<string>, text: string, after: seq<string>)
    requires after == before + [text] || (after == before && text in before)
    ensures Elements(after) == Elements(before) + {text}
  {
  }
}
