# Devcon speaker suggestion frame — a Dafny model

This project models the logic of the speaker-suggestion frame in `api/index.tsx`. A
viewer pages through a shuffled page of conference speakers. Each render offers vote
buttons while a speaker is on show, and a free-text suggestion box once the page is
used up.

The model has five modules:

- `Wrappers` (Wrappers.dfy): `Option` and `Result`.
- `Shuffle` (Shuffle.dfy): `shuffleArray`, a Fisher–Yates shuffle over a copy of its
  argument. `ShuffleArray` keeps the source's array and its descending loop. It is
  proved against `Shuffled`, a function on sequences. The lemmas prove that the shuffle
  is a permutation and that a position is final once the loop has passed it. The random
  index of each step is supplied by the caller as `draws`. `Draw` is the source's
  `Math.floor(Math.random() * (i + 1))` on exact reals, and it is proved to land in
  `[0, i]`.
- `Directory` (Directory.dfy): the checks and normalisation in `fetchSpeakers` and
  `fetchSpeaker`, applied to a decoded reply that is given as a value. `CheckReply`
  checks the transport `ok` flag, then the body, then the payload status, then the
  presence of `data`. `FetchedIds` states what `fetchSpeakers` returns, and the
  `FetchSpeakers` method computes it with `ShuffleArray`. `FetchSpeaker` makes an empty
  or missing `description`/`twitter` absent and copies the other fields.
- `SessionState` (Session.dfy): the `State` record, the frame's initial state, and the
  `deriveState` callback. The callback is the pure transition `Next` plus the class
  `Session`, whose `Derive` method updates the fields in place. `Run` folds `Next` over
  successive interactions. The lemmas prove that the index never decreases, that the
  ids never change once loaded, and that the exhausted region is terminal.
- `Frame` (Frame.dfy): the current-speaker guard, the three-way `intents` choice, the
  render after derivation (`Render`), and the whole handler (`HandleFrame`).

Where the code differs from the system's prose description, the model follows the code:

- The payload check is JavaScript's loose `json.status != "200"`. The string `"200"`,
  the number `200` and a one-element array holding either of them all pass it.
- The listing is mapped to ids only. The `twitter` field of a listing item is dropped.
- The starting offset `Math.random() * (MAX - MIN) + MIN` is never rounded.
- The current speaker is looked up on every render where the guard holds, including the
  first (`status == 'initial'`) render. A failed lookup therefore fails that render too.
- Vote tallying, the score store and suggestion persistence are described for the system
  but do not exist in this code, so they are not modelled.

## Model

| member | source | states |
|---|---|---|
| Shuffle.Draw | api/index.tsx:162 | the index drawn at loop position `i` lies in `[0, i]`, so the swap never leaves the array |
| Shuffle.DrawsFrom | api/index.tsx:160-162 | the indices drawn by the loop from a sequence of `Math.random()` values in [0, 1) all satisfy the bound `0 <= draws[i] <= i` |
| Shuffle.Swap | api/index.tsx:164 | the destructuring swap puts each of the two elements at the other position and leaves every other position and the length as they were |
| Shuffle.SwapPermutes | api/index.tsx:164 | exchanging two elements keeps the multiset of elements |
| Shuffle.SwapsDownPermutes | api/index.tsx:160-165 | the swaps of the loop from any position down to 1 keep the length and the multiset of elements |
| Shuffle.SwapsDownKeepsAbove | api/index.tsx:160-165 | the swaps for positions `i` down to 1 never change a position above `i` |
| Shuffle.SwapsDown | api/index.tsx:160-165 | the loop's swaps from position `i` down to 1 keep the length (the multiset is in SwapsDownPermutes) |
| Shuffle.Shuffled | api/index.tsx:156-168 | the shuffle result has the input's length (its permutation property is ShuffledIsPermutation) |
| Shuffle.ShuffledIsPermutation | api/index.tsx:156-168 | the shuffle result has the input's length and the input's multiset of elements |
| Shuffle.ShuffledLast | api/index.tsx:160-165 | the last position ends up holding the element at the index drawn for it |
| Shuffle.ShuffleArray | api/index.tsx:156-168 | returns a fresh array equal to `Shuffled` of the input; the input is unchanged; the result is a permutation of the input; every access is in bounds |
| Directory.DecimalIs200 | api/index.tsx:119 | the decimal string of a natural number is "200" exactly for 200 |
| Directory.IsSuccess | api/index.tsx:119 | the status check passes exactly when the loose comparison's string form of the status (a number's decimal digits, a string itself, an array's comma-joined elements) is "200" |
| Directory.CheckReply | api/index.tsx:113-121 | succeeds exactly when the transport is ok, the body decodes, the status passes `IsSuccess` and `data` is present; otherwise reports the first failed check, in the source's order: the transport code, a malformed body, the payload's message, a malformed body |
| Directory.ItemIds | api/index.tsx:122 | `items.map(item => item.id)`: one id per item, in order |
| Directory.FetchedIds | api/index.tsx:109-123 | succeeds exactly when the reply passes the checks and fails with the check's error otherwise; on success returns a permutation of the listed ids (same length, same multiset) |
| Directory.FetchSpeakers | api/index.tsx:109-128 | the method (mapping, then copying into an array and shuffling with `ShuffleArray`) returns exactly `FetchedIds` |
| Directory.Normalize | api/index.tsx:146-147 | a missing or empty string becomes absent; any other value is kept as it is |
| Directory.FetchSpeaker | api/index.tsx:130-149 | succeeds exactly when the detail reply passes the checks (the same as at 134-142); copies `id`, `sourceId`, `name` and `avatar`; normalises `description` and `twitter`; never returns an empty optional field |
| SessionState.Next | api/index.tsx:49-58 | from an unloaded state: fails with the fetch's error, or yields loaded, index 0 and the fetched ids; from a loaded state: always succeeds, the index goes up by exactly 1, the ids stay, and the state stays loaded |
| SessionState.RunFromLoaded | api/index.tsx:55-57 | after any number of derivations from a loaded state, the index has grown by that number and nothing else has changed |
| SessionState.RunFromInitial | api/index.tsx:38-58 | from the initial state, a first fetch that fails fails the run; otherwise after k further interactions the state is loaded, has index k and holds the fetched ids |
| SessionState.RunMonotone | api/index.tsx:49-58 | derivations keep a session well-formed (unloaded only as the initial state), never decrease the index, and never change the ids once loaded |
| SessionState.ExhaustedIsTerminal | api/index.tsx:55-62 | once the index reaches the number of ids, every later derivation succeeds and stays there with the same ids |
| SessionState.Session.constructor | api/index.tsx:38-42 | a new session is in the initial state: not loaded, index 0, no ids |
| SessionState.Session.Derive | api/index.tsx:49-58 | updates the fields in place as `Next` prescribes for the fetch's outcome; leaves them unchanged when the fetch fails |
| Frame.CurrentSpeakerId | api/index.tsx:60-62 | an id is selected exactly when the session is loaded and the index is inside the ids, and it is the id at the index |
| Frame.Intents | api/index.tsx:95-105 | first render: exactly the checkout button; after an interaction with the index in range and a speaker: exactly agree, then unsure, then a Twitter link when the speaker has a handle; otherwise exactly the suggestion input and the reset button |
| Frame.Render | api/index.tsx:60-105 | looks up no speaker and cannot fail when the guard is false; otherwise fails exactly when the lookup fails and shows the looked-up speaker with the matching intents |
| Frame.RenderOffersVotes | api/index.tsx:95-105 | after an interaction, the vote buttons are offered exactly when a speaker is on show, and the suggestion input exactly when none is |
| Frame.RenderLinksNonEmptyHandle | api/index.tsx:97-100 | a Twitter link is offered only for a non-empty handle |
| Frame.ExhaustedOffersSuggestion | api/index.tsx:97-105 | an exhausted session renders, after an interaction, with no speaker and exactly the suggestion input and the reset button |
| Frame.ShownInOrder | api/index.tsx:49-62 | over a session from the initial state, the k-th later render shows the k-th fetched id while there is one, and none afterwards |
| Frame.HandleFrame | api/index.tsx:45-106 | the frame handler derives the state in place, then renders it; a failed derivation fails the frame and leaves the state unchanged |

## Left out

- The HTTP requests, `response.json()`, the `await` plumbing and `console` logging (api/index.tsx:110-112, 124-127, 150-153) are I/O. A reply is a value: the transport `ok` flag and code, plus the decoded body, which is absent when decoding fails. The re-thrown error is represented by its cause.
- The listing's starting offset `Math.random() * (MAX - MIN) + MIN` and the page size `SIZE` only shape the request URL (api/index.tsx:13-15, 51, 109-110). The listing reply for that request is a parameter.
- Shuffle.Draw: computed on exact reals; the floating-point rounding of `Math.random() * (i + 1)` is not modelled.
- Shuffle.ShuffleArray: uniformity of the shuffle is a probabilistic property and is not stated. The model proves only that every choice of draws gives a permutation.
- Directory.CheckReply: a numeric status is an integer; a fractional number never equals "200" anyway. JSON values other than numbers, strings and arrays (`null`, booleans, objects) are one case, which never passes.
- Directory.FetchedIds: a listing item without an `id`, which the source keeps as `undefined` in the id list, is not modelled; every item has a string id. A listing whose `data` has no `items` array is modelled as a reply without `data`, which fails the same way.
- Directory.FetchSpeaker: other falsy values that `||` would also drop (`0`, `false`, `null`) are not modelled. Only an absent or empty string is. Fields of the detail record are strings; a missing required field is not modelled.
- The JSX image (api/index.tsx:66-94) and all of api/ui.ts are presentation.
- The Frog app construction and routing, the serialisation of the state between interactions, what `Button.Reset` does to the state, and the devtools and Vercel wiring (api/index.tsx:33-45, 170-176) are framework behaviour and deployment glue. Whether the framework runs the `deriveState` callback on the first render is not modelled either. `HandleFrame` runs the callback on every render.
- Frame.HandleFrame: when the speaker lookup fails after a successful derivation, the session has already advanced, but the frame sends no new state back, so the next interaction derives again from the earlier state. This retry across requests is not modelled; SessionState.Run likewise stops at the first failed fetch instead of retrying it.
- `feedback` (api/index.tsx:47) is computed and never used.
- Vote counting, score records and suggestion persistence do not appear in this code.
