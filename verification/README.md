# Autoshorts console: job orchestration and key gate

A Dafny model of the two stateful pieces of the Autoshorts browser console for a
remote video-generation API:

- the **playground** (`src/components/playground/Playground.tsx`): the submit guard,
  the `GenerateRequest` builder with its "leave the key out" rules, the submission
  outcome, the chained status poll (`pollJobStatus` / `stopPolling`), the one-second
  live counter, `formatElapsed`, the effect toggle and the GPU tier gate;
- the **authentication gate** (`src/App.tsx`): `handleValidate`, `handleLogout` and
  the startup effect that re-validates a stored key.

Both are pure step functions over immutable records. An `async` handler is split at
its `await`: the first function returns the new state together with what is sent
(the request, the key, the job id to poll) and the second takes the backend's answer
as a parameter. Browser storage is the `storedKey: Option<string>` field; the pending
`setTimeout` is `timer: Option<Timer>`, where a `Timer` records its delay and the
job it will poll, so "at most one pending poll" is built into the type. The wire
types of `src/lib/api.ts` are datatypes in module `Api`, with every optional
TypeScript property as an `Option` (`None` = key absent from the JSON).

Modules: `Wrappers` (Option), `JsText` (`trim`, string truthiness, decimal text),
`Api` (wire types), `Request` (form and request builder), `Effects` (toggle),
`Elapsed` (`formatElapsed` and a reader for its output), `Playground` (console
steps and the poll chain), `Auth` (key gate).

Behaviour of the code that a reader might not expect, and which the model keeps:

- `handleGenerate` does not cancel a pending poll before starting a job. The
  generate button is disabled while a job is being generated, and
  `Playground.StartGenerateFromIdle` shows that in that situation no poll is pending.
- `position_x` / `position_y` are left out only when `null`; an offset of 0 is sent.
- `custom_prompt` is sent whenever it is non-empty, whatever the prompt style.
- The CPU/GPU choice is kept in the console state but never put into the request.
- The startup effect tests the stored key for truthiness, so a stored empty string
  starts no validation; a stored all-blank key reaches `handleValidate` and stops at
  its blank-key guard, so no request is sent.
- The unmount cleanup clears only a pending timer; a poll already in flight still
  settles and can schedule another one (`Playground.PollInFlightOutlivesStop`).

## Model

| member | source | states |
|---|---|---|
| `JsText.Trim` | src/App.tsx:38-45 | `trim()` removes only white space: the key is a blank prefix, then the result (a contiguous slice), then a blank suffix; the result is empty exactly when every character is white space, and a non-empty result neither starts nor ends with white space |
| `JsText.TrimIdempotent` | src/App.tsx:45 | the stored key is already trimmed: trimming it again changes nothing |
| `JsText.Decimal` | src/components/playground/Playground.tsx:256 | the text is a canonical numeral (digits only, no leading zero): it starts with `0` only for the number 0, which reads `0`, and is one digit exactly below 10 |
| `JsText.DecimalRoundTrip` | src/components/playground/Playground.tsx:256 | the decimal text a template literal gives a whole number reads back as that number |
| `JsText.CanonicalRoundTrip` | src/components/playground/Playground.tsx:256 | the converse: every numeral without leading zeros is the decimal text of the number it denotes, so decimal text and numbers correspond one to one |
| `Request.InitialFormRequest` | src/components/playground/Playground.tsx:79-125 | with only the source URL filled in, the request carries 1080p, 15-60 s, one clip, balanced quality, the `viral_hook` style and `auto` language, and leaves out the custom prompt, the music, the webhook, the caption offsets and every effect |
| `Request.BuildRequest` | src/components/playground/Playground.tsx:195-240 | the four blocks are always present; `custom_prompt` is absent iff the prompt is empty, the music block iff the music URL is empty, `webhook_url` iff it is empty; offsets are absent only when null (0 is kept); present keys carry the form values |
| `Request.BuildRequestRoundTrip` | src/components/playground/Playground.tsx:195-240 | every built request is well formed, and the form can be read back from it (music volume and loop supplied when no music block is sent) |
| `Request.WellFormedIsBuilt` | src/components/playground/Playground.tsx:195-240 | every well-formed request is what the builder makes of the form read out of it, so the builder's image is exactly the well-formed requests |
| `Request.BuildRequestInjective` | src/components/playground/Playground.tsx:233-237 | two forms give the same request iff they agree on everything except music volume and loop, and on those too when a music URL is set |
| `Effects.Without` | src/components/playground/Playground.tsx:688 | `filter(e => e !== id)` removes every copy of the id, keeps every other element, and gives back a list without the id unchanged |
| `Effects.WithoutConcat` | src/components/playground/Playground.tsx:688 | filtering a concatenation filters each part, so with the one-element cases of `Without` the result is the other elements in their original order |
| `Effects.Toggle` | src/components/playground/Playground.tsx:686-690 | after a toggle the id is selected iff it was not; other ids keep their membership; an absent id is appended at the end, and a present id is filtered out with the remaining ids in their original order |
| `Effects.WithoutKeepsNoDuplicates` | src/components/playground/Playground.tsx:688 | filtering a duplicate-free list leaves it duplicate-free |
| `Effects.ToggleKeepsNoDuplicates` | src/components/playground/Playground.tsx:718-722 | toggling keeps a duplicate-free selection duplicate-free |
| `Effects.WithoutAppended` | src/components/playground/Playground.tsx:718-722 | removing an id just appended to a list that lacked it gives back the list |
| `Effects.ToggleTwiceRestores` | src/components/playground/Playground.tsx:718-722 | toggling an unselected id twice restores the original list |
| `Effects.ToggleTwiceSelected` | src/components/playground/Playground.tsx:718-722 | toggling a selected id twice moves it to the end of the list |
| `Effects.ToggleIsSymmetricDifference` | src/components/playground/Playground.tsx:686-690 | seen as a set, a toggle adds the id when absent and removes it when present |
| `Elapsed.FormatElapsed` | src/components/playground/Playground.tsx:252-257 | the readout ends in `s`; a missing or zero count reads `0s`; together with `FormatElapsedReadsBack` and `FormatElapsedUnique` its digits are fixed exactly |
| `Elapsed.FormatElapsedReadsBack` | src/components/playground/Playground.tsx:252-257 | the readout reads back, through a reader that accepts only numerals without leading zeros, as `{s}s` below a minute and `{m}m {s}s` from a minute on, with seconds below 60 and minutes and seconds summing back to the count |
| `Elapsed.ParseText` | src/components/playground/Playground.tsx:252-257 | every reading written as `{s}s` or `{m}m {s}s` in decimal reads back as that reading |
| `Elapsed.ParseElapsedExact` | src/components/playground/Playground.tsx:252-257 | the converse: the reader accepts only the decimal text of the reading it returns, so reader and writer are inverse |
| `Elapsed.FormatElapsedUnique` | src/components/playground/Playground.tsx:252-257 | no other text reads like the readout of a count, so `formatElapsed` is fixed digit for digit (no zero padding, no `65s` for `1m 5s`) |
| `Playground.StartGenerate` | src/components/playground/Playground.tsx:184-240 | a blank source URL only sets `Source URL is required` and sends nothing; otherwise the error is cleared, generation starts, the job and counter reset, selection and timer are kept, and the well-formed request with a non-blank URL is sent |
| `Playground.SubmitSucceeded` | src/components/playground/Playground.tsx:242-245 | the response becomes the current job and its id is polled at once |
| `Playground.SubmitFailed` | src/components/playground/Playground.tsx:246-249 | the error is the server detail when non-empty, else `Operation failed`; generation stops; nothing else changes |
| `Playground.FirstClip` | src/components/playground/Playground.tsx:153-157 | a clip is chosen iff the job has a non-empty clip list, and it is the first clip's download URL and id |
| `Playground.PollResolved` | src/components/playground/Playground.tsx:143-167 | a terminal document stops polling and generation; an in-progress one schedules one poll of the job at 15000 ms; a rejected request schedules one retry at 5000 ms and changes nothing else; only `completed` with clips changes the selection; the pending-poll invariant is kept |
| `Playground.StopPolling` | src/components/playground/Playground.tsx:136-141 | no poll is pending afterwards and nothing else changes |
| `Playground.FireTimer` | src/components/playground/Playground.tsx:163-166 | a poll starts iff one was pending, for that timer's job, and no timer is pending while it runs |
| `Playground.Tick` | src/components/playground/Playground.tsx:174-182 | the live counter advances by one exactly while generating a queued or processing job; nothing else changes |
| `Playground.ElapsedReadout` | src/components/playground/Playground.tsx:883 | the readout reads back as the server's elapsed time for a completed job and as the live counter otherwise, in the form `{m}m {s}s` with seconds below 60 from a minute on and `{s}s` below a minute |
| `Playground.ChooseGpu` | src/components/playground/Playground.tsx:460-464 | GPU is taken only for the Pro, Premium, Scale and Enterprise tiers; otherwise the hardware is unchanged |
| `Playground.ChooseCpu` | src/components/playground/Playground.tsx:445 | CPU is always taken; nothing else changes |
| `Playground.HardwareButtonsKeepAllowed` | src/components/playground/Playground.tsx:445-464 | neither button lets a console hold GPU for an account outside the GPU tiers, and for such an account the GPU button leaves CPU in place |
| `Playground.TickAdvancesReadout` | src/components/playground/Playground.tsx:174-182 | while the ticker runs, each tick moves the elapsed readout on by exactly one second |
| `Playground.ToggleEffect` | src/components/playground/Playground.tsx:686-690 | an effect button flips its id's membership in the form's selection: an unselected id is appended at the end, a selected one is filtered out with the other ids in their original order, every other id keeps its membership, and nothing else in the console or form changes |
| `Playground.RunPolls` | src/components/playground/Playground.tsx:143-167 | the poll chain never touches the form, the hardware choice or the error text; after at least one poll any pending timer is for the same job; and it keeps the pending-poll invariant while a job is being generated |
| `Playground.RunPollsInProgress` | src/components/playground/Playground.tsx:162-167 | while no outcome is terminal, exactly one poll of the same job stays pending (15000 ms after a document, 5000 ms after a rejected request), generation and selection are untouched, and the current job is the last document fetched |
| `Playground.RunPollsStopsAtTerminal` | src/components/playground/Playground.tsx:149-160 | the first terminal document ends the chain: no poll pending, generation over, later outcomes unused, that document shown, the first clip selected for `completed` with clips and the earlier selection kept otherwise |
| `Playground.TickerStopsAtTerminal` | src/components/playground/Playground.tsx:174-182 | once the poll chain meets a terminal document the ticker is stopped and ticks change nothing |
| `Playground.InitialConsoleIdle` | src/components/playground/Playground.tsx:79-134 | the console starts on CPU, not generating, with no poll pending and the ticker stopped, with no GPU choice to violate any tier, and the empty source URL makes the generate button report only that a source URL is required |
| `Playground.StartGenerateFromIdle` | src/components/playground/Playground.tsx:184-193 | with the button enabled no poll is pending, and starting a job keeps it so |
| `Playground.GenerationSettles` | src/components/playground/Playground.tsx:242-245 | submit, accept and poll to a terminal document: the console ends idle with no poll pending, showing that document, with the form intact |
| `Playground.PollInFlightOutlivesStop` | src/components/playground/Playground.tsx:170-172 | after the cleanup, a poll still in flight that settles non-terminally schedules another poll of its job |
| `Auth.Initial` | src/App.tsx:22-26 | the shell starts signed out, not validating, with no user, an empty key field and no error, over the browser's stored key |
| `Auth.KeyToUse` | src/App.tsx:37 | the argument is used when it is a non-empty string, otherwise the key field |
| `Auth.BeginValidate` | src/App.tsx:36-45 | a blank key only sets `Please enter your API key`; otherwise validation starts, the error clears and the trimmed key is both stored and sent |
| `Auth.StoredKeyIsTrimmed` | src/App.tsx:45 | the key written to storage and sent is non-empty and already trimmed |
| `Auth.FinishValidate` | src/App.tsx:47-56 | validation ends on both branches; valid signs the user in; invalid removes the stored key, leaves the sign-in state alone and shows the server text or `Invalid API Key` |
| `Auth.Validate` | src/App.tsx:36-57 | the whole handler: stored key is the trimmed key after success and absent after failure; signed in iff valid (or already); blank key changes only the error |
| `Auth.Logout` | src/App.tsx:59-64 | nothing stored, signed out, no user, empty key field; error and validation flag kept |
| `Auth.Startup` | src/App.tsx:28-34 | with no stored key or an empty one the shell starts in its initial state and sends nothing; a request goes out iff the stored key is not blank, carrying it trimmed, with that key stored and the shell validating, signed out, with no user or error; a stored non-empty key is put in the key field, and an all-blank one only sets `Please enter your API key` |
| `Auth.StartupSendsStoredKey` | src/App.tsx:28-34 | at startup a request is sent iff a non-blank key is stored, it carries that key trimmed, and the shell is validating and signed out meanwhile |
| `Auth.InvalidKeyNeverAuthenticates` | src/App.tsx:53-56 | a rejected key leaves nothing stored and the shell signed out |
| `Auth.RejectedKeyNotRetriedAtStartup` | src/App.tsx:54 | after a rejection the next startup validates nothing |
| `Auth.AcceptedKeyRevalidatedAtStartup` | src/App.tsx:45 | after an accepted key the next startup sends the very same key |
| `Auth.LogoutRestoresInitial` | src/App.tsx:59-64 | signing out of a settled shell with no error returns it to its first state over empty storage |
| `Auth.LogoutIdempotent` | src/App.tsx:59-64 | logging out twice equals logging out once, and the next startup validates nothing |

## Left out

- Rendering, animation, styling and icons: presentation only.
- The HTTP calls of `src/lib/api.ts` and its request interceptor: their outcomes are
  parameters (`JobResponse`, `PollOutcome`, `Validation`, an optional `detail` text);
  the key a validation request carries is modelled as the key just stored.
- Real timer timing and React scheduling: a pending `setTimeout` is the `timer`
  field, the `setInterval` ticker is the `Tick` step, and the interleaving of ticks
  with polls is not modelled (`RunPolls` chains polls only).
- Floating-point values: volumes, stroke width, clip duration and virality score are
  carried as `real` without arithmetic; the server's `elapsed` is taken after
  `Math.floor`, so a fractional elapsed time below one second (truthy but flooring
  to 0) is not distinguished from 0.
- `parseInt` of the offset inputs and every other input handler that only stores a
  value into the form.
- `JsText.Decimal`: numbers are unbounded naturals. A JavaScript number is written in
  exponent form from 10^21 on and is not exact above 2^53, so the model assumes elapsed
  counts below 2^53 seconds, where the two agree.
- `Elapsed.FormatElapsed`: only whole, non-negative seconds are modelled; `Math.floor`
  of a fractional or negative count is not.
