# FusionBrain Telegram bot: dialogue state and generation protocol

This project models the two pieces of logic in a Telegram bot that sits in front of the
FusionBrain text-to-image HTTP API. Both are proved in Dafny.

- **The dialogue** (`main.py`, module `Dialogue` in `dialogue.dfy`). The global `user_states`
  dictionary is the field `userStates: map<UserId, Session>` of class `Bot`. Each chat handler
  is one method that updates that map, and its contract gives the whole new map in terms of the
  old one: which field of which record changes, and that nothing else does. `Valid()` is kept by
  every handler. It says each record's style is a catalog id and the only keys beyond the four
  standard ones are `style_request` and `generate_request`.
- **The generation client** (`generation.py`, module `Generation` in `generation.dfy`). It covers:
  - first-model selection;
  - construction of the request parameters, where the negative prompt is present only when it is truthy;
  - the bounded status-poll loop, whose outcome and request/sleep counts are given by the
    recursive specification `PollFrom`;
  - stripping a data-URI header before decoding;
  - the sequential `1.png`, `2.png`, … file paths.
  Every HTTP reply is an input: `Reply<T>` is a parsed JSON body or a non-success status. The
  reply to status request number `j` is `respond(j)`.
- `common.dfy` holds Option/Result and Python truthiness. `decimal.dfy` holds the decimal
  notation that `f"{index + 1}.png"` produces, with its round trip.

Behaviour of the source that the model keeps as is:
- Free text while the cursor is `style` or `generate` is stored under the key `awaiting + '_request'`.
  Nothing ever reads that key. The cursor then goes back to `style`, so free text after the style
  is chosen makes the user no longer ready for `/generate` (`Bot.TextAfterStyle`).
- `/positive`, `/negative`, `/skip_negative` and the style callback index `user_states[user_id]`
  directly. A user id without a record raises `KeyError`, and the map stays unchanged.
- `/generate` never changes `user_states`. `Bot.GenerateImage` has no `modifies` clause, so a
  repeated `/generate` stays eligible.
- `/generate` passes the user id as the `attempts` argument of `check_generation` (main.py:95).
  The number of status requests is therefore bounded by the user id, not by the default of 10.

Behaviour worth noting:
- No exception is caught in main.py:85-103. Any failure escapes the handler and the user gets no
  reply (`Unhandled(error)`).
- The error reply at main.py:101 is reached only if `check_generation` returns an empty list, and
  it never does. `Bot.GenerateImage` proves `reply != GenerationError`.
- The number of poll attempts is the user id, not `check_generation`'s default of 10.

## Model

| member | source | states |
|---|---|---|
| `Generation.GetModel` | generation.py:22-30 | success exactly when the listing is a successful reply whose first entry has an id, and then that first id; a failed request is a transport error, an empty list is `NoModelsAvailable`, and a first entry without an id is `MissingModelId` (the `KeyError`) |
| `Generation.Generate` | generation.py:32-63 | `type` is "GENERATE"; `numImages`, `width`, `height`, `style` and `generateParams.query` are the arguments; the JSON key `negativePromptUnclip` is present exactly when the negative prompt is neither None nor empty, and then holds it; the model id is sent; the job id is the reply's `uuid`, a reply without one is `MissingUuid`, a failed request a transport error |
| `Generation.StripDataUriHeader` | generation.py:96-99 | a comma-free string is unchanged; otherwise the input is a comma-free header, a comma and the result |
| `Generation.FirstComma` | generation.py:98-99 | the position `split(",", 1)` cuts at: no comma before it, a comma at it, or the end when there is none |
| `Generation.StripHeaderComma` | generation.py:98-99 | any comma-free header followed by a comma and a payload strips to exactly the payload |
| `Generation.Base64ToImage` | generation.py:96-101 | a comma-free string decodes as it is; one with a comma decodes from a strictly shorter text, the part after the header |
| `Generation.DataUriDecodesAlike` | generation.py:96-101 | a comma-free payload decodes to the same image with or without the `data:image/png;base64,` header |
| `Decimal.NatToDecimal` | generation.py:106 | at least one digit, only digits, and a leading zero only in "0" itself |
| `Decimal.DecimalRoundTrip` | generation.py:106 | reading the decimal notation of `n` back gives `n` |
| `Decimal.NatToDecimalInjective` | generation.py:106 | different numbers have different notations |
| `Generation.ImageFileName` | generation.py:106 | the name is a run of digits followed by ".png", the digits denote `index + 1`, and it does not start with "/" |
| `Generation.ImagePath` | generation.py:104-109 | the path ends with the file name for `index`, and before it stands the save directory, followed by "/" unless it is empty or already ends with one (`os.path.join`) |
| `Generation.ImagePaths` | generation.py:83-87 | `n` images give `n` paths, the `i`-th the path `save_image` gives index `i` |
| `Generation.FirstFileNames` | generation.py:104-109 | index 0 is saved as `1.png` and index 1 as `2.png`; under `img` they are `img/1.png` and `img/2.png` |
| `Generation.ImagePathsDistinct` | generation.py:104-109 | two different indices never get the same path, whatever the save directory |
| `Generation.CheckGeneration` | generation.py:65-93 | the loop's result, number of status requests and number of sleeps are those of the specification `PollFrom` |
| `Generation.PollShape` | generation.py:73-93 | at most `attempts` requests; one sleep after each non-terminal reply; a timeout comes only after exactly `attempts` requests and as many sleeps; any other outcome comes from the first terminal reply, with one sleep fewer than requests |
| `Generation.TimeoutIff` | generation.py:73-93 | the loop times out if and only if all `attempts` replies are non-terminal |
| `Generation.FirstTerminalDecides` | generation.py:73-93 | the first terminal reply, on request `k`, decides the result after exactly `k` requests and `k - 1` sleeps |
| `Generation.FailStopsPolling` | generation.py:88-91 | "FAIL" on request `k` raises `GenerationFailed` with the reply's description, after `k` requests and `k - 1` sleeps |
| `Generation.DoneSavesInOrder` | generation.py:78-87 | "DONE" with `n >= 1` images on request `k` succeeds with `n` paths, the `i`-th being `save_path/(i+1).png`, after `k` requests and `k - 1` sleeps |
| `Generation.SuccessIsNonEmptyAndDistinct` | generation.py:78-87 | a success never has an empty path list, so "DONE" without images is never a success; its paths are pairwise distinct |
| `Generation.PendingPendingDone` | generation.py:73-93 | pending, pending, then "DONE" with two images: three requests, two sleeps, `img/1.png` and `img/2.png` |
| `Generation.AllPendingTimesOut` | generation.py:73-93 | three attempts, all pending: a timeout after exactly three requests and three sleeps |
| `Dialogue.InitialRecord` | main.py:31 | the reset record has both prompts None, style "DEFAULT", `awaiting` None and no other keys; it is well formed and not ready for `/generate` |
| `Dialogue.RequestKey` | main.py:111 | the key free text goes to is `awaiting + '_request'`: it ends in "_request", is never "style" or "awaiting", and is "positive_request" or "negative_request" exactly for those two cursors |
| `Dialogue.Session.Put` | main.py:111 | storing under a key never touches `style` or `awaiting`; "positive_request" and "negative_request" set only that prompt; any other key is added to the extra keys with the text, keeping the others |
| `Dialogue.ReadyToGenerate` | main.py:88-89 | ready implies a record whose positive prompt is a non-empty string and whose cursor is "generate"; a record with another cursor or with a None or empty positive prompt is not ready |
| `Dialogue.Bot.constructor` | main.py:15 | the map starts empty |
| `Dialogue.Bot.ResetUserState` | main.py:30-31 | the user's record becomes `{positive_request: None, negative_request: None, style: 'DEFAULT', awaiting: None}` whatever it held; other users' records are untouched |
| `Dialogue.Bot.StartCommand` | main.py:34-41 | `/start` resets the user's record, and nothing else |
| `Dialogue.Bot.PositiveRequestCommand` | main.py:44-48 | with a record: only `awaiting` changes, to "positive"; without one: `KeyError` and the map is unchanged |
| `Dialogue.Bot.NegativeRequestCommand` | main.py:51-55 | with a record: only `awaiting` changes, to "negative"; without one: `KeyError` and the map is unchanged |
| `Dialogue.Bot.SkipNegativeCommand` | main.py:58-63 | with a record: `negative_request` becomes None and `awaiting` "style", positive prompt and style unchanged; without one: `KeyError` and the map is unchanged |
| `Dialogue.Bot.StyleCommand` | main.py:66-72 | one menu button per catalog entry, in catalog order, carrying its id; no record changes |
| `Dialogue.Bot.ProcessStyleSelection` | main.py:75-82 | only ids among the four catalog names are routed; then `style` becomes the id and `awaiting` "generate", nothing else; a user without a record raises `KeyError` |
| `Dialogue.Bot.GenerateImage` | main.py:85-103 | no provider call unless the positive prompt is truthy and `awaiting` is "generate"; then one model listing, one submission with the record's prompts and style, and up to user-id status requests; the submitted style is a catalog id; the first saved image is delivered; every failure escapes unhandled; the error reply is never produced; the map never changes |
| `Dialogue.Bot.SetRequest` | main.py:106-116 | no record or `awaiting` None: nothing changes; "positive": stores `positive_request` and moves to "negative"; "negative": stores `negative_request` and moves to "style"; "style" or "generate": stores `style_request` or `generate_request` and moves to "style"; after storing, the user is never ready for `/generate` |
| `Dialogue.Bot.LinearDialogue` | main.py:30-112 | `/start`, `/positive`, text, then text or `/skip_negative`, then a catalog style: the record holds exactly the entered prompts and style and passes the `/generate` guard; other users are untouched |
| `Dialogue.Bot.TextAfterStyle` | main.py:106-112 | free text from a user ready for `/generate` moves the cursor back to "style", stores `generate_request`, and leaves the user not ready |

## Left out

- Chat transport: aiogram's bot, dispatcher, executor, replies, inline keyboard markup, callback answers and photo sending (main.py:1-13, 38-41, 48, 55, 63, 69-72, 80-82, 97-103, 113-116, 119-120). A handler only reports which branch it took. Reply texts, button titles and preview URLs are not modelled.
- HTTP: `requests.Session`, the endpoint URLs, the auth headers and the credential module (generation.py:1, 14-20, 24-25, 53-58, 72, 74). Replies are inputs. A non-JSON body, and a JSON value of an unexpected shape (a listing that is not a list, a non-string uuid), are not modelled.
- `base64.b64decode` and PIL's `Image.open` and `image.save` (generation.py:100-101, 108) are foreign libraries. A decoded image stands for the text it was decoded from, and a decoding failure is not modelled.
- Directory creation and PNG writing (generation.py:70-71, 107-108): only the path string is modelled.
- `time.sleep(delay)` (generation.py:92): sleeps are counted, and time is not modelled.
- Logging and the command-line demo blocks (main.py:6-8, 119-120; generation.py:112-120).
- Concurrency between aiogram tasks. The source has no locking, and handlers are modelled as sequential steps on the map.
- Opening the first image file for sending (main.py:97-98): the reply only names the path.
- `Dialogue.Session`: a record is a value inside the map, not a dictionary shared by reference. The one alias the source takes (`user_data` in `generate_image`) is only read.
