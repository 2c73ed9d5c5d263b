/** The frame handler of api/index.tsx after the state is derived: which speaker is
    looked up, and which intents (buttons and inputs) are offered. The image markup is
    presentation and is not modelled. */
module Frame {
  import opened Wrappers
  import opened Directory
  import opened SessionState

  /** The frame's `status`: the first render, or a render after an interaction. */
  datatype FrameStatus = InitialFrame | ResponseFrame | RedirectFrame

  /** An intent of the frame. */
  datatype Intent =
    | Button(value: string, text: string)
    | Link(href: string, text: string)
    | TextInput(placeholder: string)
    | ResetButton(text: string)

  const Checkout := Button("checkout", "Check out previous speakers")
  const Agree := Button("agree", "Agree")
  const Unsure := Button("unsure", "Unsure")
  const SuggestionInput := TextInput("Suggest a speaker from Asia, especially SEA")
  const Submit := ResetButton("Submit")

  function TwitterLink(handle: string): Intent {
    Link("https://x.com/" + handle, "Twitter")
  }

  /** The id of the speaker on show: present only when the session is loaded and the
      index is inside the ids, so the index is always valid. */
  function CurrentSpeakerId(s: State): (id: Option<string>)
    ensures id.Some? <==> s.loaded && s.currentIdx < |s.speakerIds|
    ensures id.Some? ==> id.value == s.speakerIds[s.currentIdx]
  {
    if s.loaded && s.currentIdx < |s.speakerIds| then Some(s.speakerIds[s.currentIdx]) else None
  }

  /** The voting case of `intents`: not the first render, the index inside the ids, and
      a speaker fetched. */
  predicate Voting(status: FrameStatus, s: State, speaker: Option<Speaker>) {
    status != InitialFrame && s.currentIdx < |s.speakerIds| && speaker.Some?
  }

  /** `intents`: the checkout button on the first render; the two vote buttons, with a
      Twitter link when the speaker has a handle, while a speaker is on show; otherwise
      the suggestion input and the reset button. A `false` entry of the source's array is
      not an intent, so the missing link is left out of the list. */
  function Intents(status: FrameStatus, s: State, speaker: Option<Speaker>): (r: seq<Intent>)
    ensures status == InitialFrame ==> r == [Checkout]
    ensures Voting(status, s, speaker) ==>
              r == [Agree, Unsure] + (if speaker.value.twitter.Some? then [TwitterLink(speaker.value.twitter.value)] else [])
    ensures Agree in r <==> Voting(status, s, speaker)
    ensures Unsure in r <==> Voting(status, s, speaker)
    ensures forall i :: 0 <= i < |r| && r[i].Link? ==>
              Voting(status, s, speaker) && speaker.value.twitter.Some?
              && r[i] == TwitterLink(speaker.value.twitter.value)
    ensures Voting(status, s, speaker) && speaker.value.twitter.Some?
            ==> TwitterLink(speaker.value.twitter.value) in r
    ensures SuggestionInput in r <==> status != InitialFrame && !Voting(status, s, speaker)
    ensures SuggestionInput in r ==> r == [SuggestionInput, Submit]
  {
    if status == InitialFrame then
      [Checkout]
    else if s.currentIdx < |s.speakerIds| && speaker.Some? then
      [Agree, Unsure] + (if speaker.value.twitter.Some? then [TwitterLink(speaker.value.twitter.value)] else [])
    else
      [SuggestionInput, Submit]
  }

  /** What a render hands to presentation. */
  datatype View = View(state: State, speaker: Option<Speaker>, intents: seq<Intent>)

  /** The render after derivation: the current speaker is fetched (through `lookup`, the
      directory's detail reply per id) only when there is one, and its failure fails the
      render. */
  function Render(status: FrameStatus, s: State, lookup: string -> Reply<Speaker>): (r: Result<View, Error>)
    ensures CurrentSpeakerId(s).None? ==> r == Ok(View(s, None, Intents(status, s, None)))
    ensures CurrentSpeakerId(s).Some? ==>
              var fetched := FetchSpeaker(lookup(CurrentSpeakerId(s).value));
              (r.Ok? <==> fetched.Ok?) && (r.Err? ==> r.error == fetched.error)
              && (r.Ok? ==> r.value == View(s, Some(fetched.value), Intents(status, s, Some(fetched.value))))
  {
    match CurrentSpeakerId(s)
    case None => Ok(View(s, None, Intents(status, s, None)))
    case Some(id) =>
      match FetchSpeaker(lookup(id))
      case Err(e) => Err(e)
      case Ok(speaker) => Ok(View(s, Some(speaker), Intents(status, s, Some(speaker))))
  }

  /** The vote buttons are offered exactly after an interaction while a speaker is on
      show; the suggestion input exactly after an interaction once none is. */
  lemma RenderOffersVotes(status: FrameStatus, s: State, lookup: string -> Reply<Speaker>)
    requires Render(status, s, lookup).Ok?
    ensures var v := Render(status, s, lookup).value;
            (Agree in v.intents <==> status != InitialFrame && CurrentSpeakerId(s).Some?)
            && (SuggestionInput in v.intents <==> status != InitialFrame && CurrentSpeakerId(s).None?)
  {
  }

  /** A Twitter link is offered only for a non-empty handle, because `fetchSpeaker`
      turns an empty one into none. */
  lemma RenderLinksNonEmptyHandle(status: FrameStatus, s: State, lookup: string -> Reply<Speaker>, i: nat)
    requires Render(status, s, lookup).Ok?
    requires i < |Render(status, s, lookup).value.intents|
    requires Render(status, s, lookup).value.intents[i].Link?
    ensures exists handle :: handle != "" && Render(status, s, lookup).value.intents[i] == TwitterLink(handle)
  {
  }

  /** Once a session is exhausted, every later render after an interaction offers the
      suggestion input and the reset button, and looks up no speaker. */
  lemma ExhaustedOffersSuggestion(status: FrameStatus, s: State, lookup: string -> Reply<Speaker>)
    requires Exhausted(s) && status != InitialFrame
    ensures Render(status, s, lookup) == Ok(View(s, None, [SuggestionInput, Submit]))
  {
  }

  /** Over a session started from the initial state, the render after the k-th later
      interaction shows the k-th fetched id while there is one, and none afterwards. */
  lemma ShownInOrder(ids: seq<string>, fetches: seq<Result<seq<string>, Error>>)
    ensures Run(Initial, [Ok(ids)] + fetches).Ok?
    ensures CurrentSpeakerId(Run(Initial, [Ok(ids)] + fetches).value)
            == if |fetches| < |ids| then Some(ids[|fetches|]) else None
  {
    RunFromInitial(Ok(ids), fetches);
  }

  /** The handler of the `/` frame: derive the state, then render. A failed derivation
      or a failed speaker lookup fails the frame. */
  method HandleFrame(session: Session, status: FrameStatus, listing: Reply<SpeakerPage>, draws: seq<nat>,
                     lookup: string -> Reply<Speaker>)
    returns (r: Result<View, Error>)
    requires DrawsFit(listing, draws)
    modifies session
    ensures var next := Next(old(session.Snapshot()), FetchedIds(listing, draws));
            (next.Err? ==> r == Err(next.error) && session.Snapshot() == old(session.Snapshot()))
            && (next.Ok? ==> r == Render(status, next.value, lookup) && session.Snapshot() == next.value)
  {
    var derived := session.Derive(listing, draws);
    if derived.Err? {
      return Err(derived.error);
    }
    var state := derived.value;
    var current := CurrentSpeakerId(state);
    var speaker: Option<Speaker> := None;
    if current.Some? {
      var fetched := FetchSpeaker(lookup(current.value));
      if fetched.Err? {
        return Err(fetched.error);
      }
      speaker := Some(fetched.value);
    }
    r := Ok(View(state, speaker, Intents(status, state, speaker)));
  }
}
