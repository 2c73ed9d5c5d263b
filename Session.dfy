/** The per-viewer session of the frame (api/index.tsx): the `State` record, its initial
    value, and the `deriveState` callback that the frame runs once per interaction. */
module SessionState {
  import opened Wrappers
  import opened Directory

  /** `State`: whether the speaker ids were fetched, the position of the speaker on
      show, and the shuffled ids. */
  datatype State = State(loaded: bool, currentIdx: nat, speakerIds: seq<string>)

  /** The frame's `initialState`. */
  const Initial := State(false, 0, [])

  /** Every state a session can be in: an unloaded one is the initial state. */
  predicate WellFormed(s: State) {
    !s.loaded ==> s == Initial
  }

  /** Every fetched speaker has been passed: no speaker is on show any more. */
  predicate Exhausted(s: State) {
    s.loaded && s.currentIdx >= |s.speakerIds|
  }

  /** One run of the `deriveState` callback on the previous state. `fetched` is what
      `fetchSpeakers` yields if the callback calls it; its failure fails the derivation. */
  function Next(prev: State, fetched: Result<seq<string>, Error>): (r: Result<State, Error>)
    ensures r.Ok? ==> r.value.loaded
    ensures !prev.loaded ==> (r.Ok? <==> fetched.Ok?)
    ensures !prev.loaded && r.Err? ==> r.error == fetched.error
    ensures !prev.loaded && r.Ok? ==> r.value.currentIdx == 0 && r.value.speakerIds == fetched.value
    ensures prev.loaded ==> r.Ok? && r.value.currentIdx == prev.currentIdx + 1
                            && r.value.speakerIds == prev.speakerIds
  {
    if !prev.loaded then
      match fetched
      case Err(e) => Err(e)
      case Ok(ids) => Ok(State(true, 0, ids))
    else
      Ok(prev.(currentIdx := prev.currentIdx + 1))
  }

  /** Successive derivations, one per interaction, each with what its fetch would yield;
      the first failure ends the run. */
  function Run(s: State, fetches: seq<Result<seq<string>, Error>>): Result<State, Error>
    decreases |fetches|
  {
    if fetches == [] then Ok(s)
    else match Next(s, fetches[0])
      case Err(e) => Err(e)
      case Ok(t) => Run(t, fetches[1..])
  }

  /** Once loaded, every derivation advances the index by one and nothing else; no fetch
      is made, so none can fail. */
  lemma {:induction false} RunFromLoaded(s: State, fetches: seq<Result<seq<string>, Error>>)
    requires s.loaded
    ensures Run(s, fetches) == Ok(s.(currentIdx := s.currentIdx + |fetches|))
    decreases |fetches|
  {
    if fetches != [] {
      RunFromLoaded(s.(currentIdx := s.currentIdx + 1), fetches[1..]);
    }
  }

  /** From the initial state, the first derivation installs the fetched ids or fails with
      the fetch's error; each later one moves one speaker on. */
  lemma RunFromInitial(first: Result<seq<string>, Error>, fetches: seq<Result<seq<string>, Error>>)
    ensures Run(Initial, [first] + fetches)
            == if first.Ok? then Ok(State(true, |fetches|, first.value)) else Err(first.error)
  {
    var all := [first] + fetches;
    assert all[1..] == fetches;
    if first.Ok? {
      RunFromLoaded(State(true, 0, first.value), fetches);
    }
  }

  /** Derivations keep a session well-formed, never decrease the index, and never change
      the ids once they are loaded. */
  lemma RunMonotone(s: State, fetches: seq<Result<seq<string>, Error>>)
    requires WellFormed(s) && Run(s, fetches).Ok?
    ensures WellFormed(Run(s, fetches).value)
    ensures s.currentIdx <= Run(s, fetches).value.currentIdx
    ensures s.loaded ==> Run(s, fetches).value.speakerIds == s.speakerIds
  {
    if s.loaded {
      RunFromLoaded(s, fetches);
    } else if fetches != [] {
      assert fetches == [fetches[0]] + fetches[1..];
      RunFromInitial(fetches[0], fetches[1..]);
    }
  }

  /** The exhausted region is terminal: no further derivation leaves it. */
  lemma ExhaustedIsTerminal(s: State, fetches: seq<Result<seq<string>, Error>>)
    requires Exhausted(s)
    ensures Run(s, fetches).Ok? && Exhausted(Run(s, fetches).value)
    ensures Run(s, fetches).value.speakerIds == s.speakerIds
  {
    RunFromLoaded(s, fetches);
  }

  /** The state of one request of the frame, updated in place by the `deriveState`
      callback. The frame passes it on to the next interaction only when the handler
      completes. */
  class Session {
    var loaded: bool
    var currentIdx: nat
    var speakerIds: seq<string>

    function Snapshot(): State
      reads this
    {
      State(loaded, currentIdx, speakerIds)
    }

    /** A session in the frame's `initialState`. */
    constructor ()
      ensures Snapshot() == Initial
    {
      loaded, currentIdx, speakerIds := false, 0, [];
    }

    /** The `deriveState` callback: on the first interaction it fetches the listing
        (whose reply is `listing`, shuffled with `draws`), installs the ids, resets the
        index and marks the session loaded; later it only increments the index. A failed
        fetch changes nothing and fails the derivation. */
    method Derive(listing: Reply<SpeakerPage>, draws: seq<nat>) returns (outcome: Result<State, Error>)
      requires DrawsFit(listing, draws)
      modifies this
      ensures outcome == Next(old(Snapshot()), FetchedIds(listing, draws))
      ensures outcome.Ok? ==> Snapshot() == outcome.value
      ensures outcome.Err? ==> Snapshot() == old(Snapshot())
    {
      if !loaded {
        var fetched := FetchSpeakers(listing, draws);
        if fetched.Err? {
          return Err(fetched.error);
        }
        speakerIds := fetched.value;
        currentIdx := 0;
        loaded := true;
      } else {
        currentIdx := currentIdx + 1;
      }
      outcome := Ok(Snapshot());
    }
  }
}
