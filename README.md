# Ollama chatbot: stream loops, chat sessions and dialogs

This project models the core of a PyQt6 desktop client for a local Ollama
server. It has three parts.

- **Workers** (`ollama_worker.dfy`). Two background workers read the
  server's newline-delimited JSON reply one line at a time.
  - `OllamaWorker` posts a prompt to `/api/generate` and emits one
    `token_received` signal per `response` field. It stops on `done` or when
    `stop()` clears its `is_running` flag.
  - `ModelDownloadWorker` posts a model name to `/api/pull` and emits one
    `progress` message per record.
  - Each worker ends with `finished`, or with `error` when anything raises.
  - The HTTP reply is modelled as a `Response`: either a refused connection,
    or a sequence of lines that are already classified as blank, malformed,
    failing to be fetched, or a record with its optional fields.
  - The concurrent `stop()` from the UI thread is a parameter `stopAt`: the
    iteration at which the flag is found cleared.
  - The signals a worker emits are appended to its `emitted` sequence.
- **MainWindow** (`main_window.dfy`). The chat bookkeeping of the main
  window, without its widgets: the `messages` of the chat on screen, the
  `chat_sessions` list, `current_session_index` (-1 before any session
  exists), the `current_response` accumulator and the worker.
- **Dialogs** (`dialogs.dfy`).
  - The settings dialog works on the settings dictionary it shares with the
    main window, drawn as class `Settings`. Its sliders are kept as their
    values and clamped to the slider ranges.
  - The download dialog validates the model name and starts or cancels a
    `ModelDownloadWorker`.

Support modules:
- `text.dfy` holds the parts of Python's `str` that the source relies on:
  `strip()` over exactly the characters `str.isspace()` accepts, the slice
  `s[:n]`, and `str(n)` of a natural number.
- `wrappers.dfy` holds `Option`.

Temperatures are integer tenths throughout: 7 stands for 0.7. The slider
positions 0..20 are thereby exactly the stored temperatures, and
`int(temperature * 10)` is the stored value itself.

## Model

| member | source | states |
|---|---|---|
| Workers.BuildGeneratePayload | ollama-chatbot/workers/ollama_worker.py:30-41 | The body always has `model`, `prompt`, `stream = true` and `options {temperature, num_predict}`. It has a `system` key exactly when the system prompt is non-empty, and no other keys. |
| Workers.OllamaWorker.constructor | ollama-chatbot/workers/ollama_worker.py:17-24 | Stores the five request parameters. The worker starts with `is_running` set and nothing emitted. |
| Workers.OllamaWorker.Stop | ollama-chatbot/workers/ollama_worker.py:60-62 | Clears `is_running`. |
| Workers.OllamaWorker.Start | ollama-chatbot/gui/main_window.py:314 | `worker.start()`: marks the thread started. Its run is the separate Run call. |
| Workers.GenerationEvents | ollama-chatbot/workers/ollama_worker.py:45-55 | Definition of the line loop's signals. The end of the stream or a stop found at the is_running check gives finished. A fetch fault or a malformed line gives one error. A blank line is skipped. A record emits its `response` as a token, then finishes if `done` is true and otherwise goes on. |
| Workers.GenerationRun | ollama-chatbot/workers/ollama_worker.py:28-58 | Definition: a refused connection gives one error; otherwise the signals of GenerationEvents. |
| Workers.OllamaWorker.Run | ollama-chatbot/workers/ollama_worker.py:26-58 | Posts the body of IsGenerateBody. A refused connection emits one error. Otherwise the signals of the line loop are appended, as GenerationEvents defines them. |
| Workers.OllamaWorker.ReadLines | ollama-chatbot/workers/ollama_worker.py:45-55 | The loop appends exactly GenerationEvents(lines, stopAt) to `emitted`. A worker already stopped emits only finished, unless fetching the first line faults, which emits an error. The flag is clear afterwards exactly when the stop landed at an is_running check. |
| Workers.GenerationTerminatesOnce | ollama-chatbot/workers/ollama_worker.py:28-58 | Every line stream gives zero or more tokens, then exactly one terminal signal (finished or error), and nothing after it. |
| Workers.GenerationRunTerminatesOnce | ollama-chatbot/workers/ollama_worker.py:28-58 | The same holds for a whole run, a refused connection included. |
| Workers.TokensAreResponses | ollama-chatbot/workers/ollama_worker.py:45-53 | The emitted token texts are exactly the `response` fields of the processed lines, in stream order. Their concatenation equals the concatenation of those fields. |
| Workers.TokensOfConcat | ollama-chatbot/workers/ollama_worker.py:50-51 | The tokens of concatenated signal sequences are the concatenated tokens. |
| Workers.ResponsesOfConcat | ollama-chatbot/workers/ollama_worker.py:50-51 | The `response` fields of concatenated streams are the concatenated fields. |
| Workers.ConcatOfConcat | ollama-chatbot/workers/ollama_worker.py:50-51 | Joining concatenated text pieces gives the concatenation of the two joins. |
| Workers.TokenEventsOfConcat | ollama-chatbot/workers/ollama_worker.py:50-51 | The token signals of concatenated texts are the concatenated token signals. |
| Workers.Processed | ollama-chatbot/workers/ollama_worker.py:45-53 | The number of lines the loop processes never exceeds the stream length. |
| Workers.BlankLinesAreSkipped | ollama-chatbot/workers/ollama_worker.py:48 | A blank line only uses up one is_running check. Removing it gives the same signals, with the stop one iteration earlier. |
| Workers.DoneEndsStream | ollama-chatbot/workers/ollama_worker.py:52-53 | After a line whose `done` is true, nothing is read: any two continuations give the same signals. |
| Workers.StopActsAsEndOfStream | ollama-chatbot/workers/ollama_worker.py:46-47 | A stop that lands before line k gives the same signals as a stream cut at k. |
| Workers.StoppedRunFinishes | ollama-chatbot/workers/ollama_worker.py:46-55 | A run that the stop reaches emits the tokens of the lines before the stop, then finished, with no separate cancel signal. |
| Workers.ContinuingLine | ollama-chatbot/workers/ollama_worker.py:48-51 | A blank line, or a record without `done`, emits its response (if any) as a token and hands over to the next line. |
| Workers.DoneLine | ollama-chatbot/workers/ollama_worker.py:50-55 | A record with `done` emits its response (if any) as a token, then finished. |
| Workers.ResponsesOfPrefix | ollama-chatbot/workers/ollama_worker.py:50-51 | The responses of a non-empty prefix are those of its first line, followed by the responses of the rest. |
| Workers.LateStopIsNoStop | ollama-chatbot/workers/ollama_worker.py:46-47 | A stop that would land past the last line changes nothing. |
| Workers.CompleteGeneration | ollama-chatbot/workers/ollama_worker.py:45-55 | A well-formed stream, read to its end or to its `done` line, emits one token per `response` field, then finished and no error. |
| Workers.BrokenLineFails | ollama-chatbot/workers/ollama_worker.py:45-58 | A malformed line that is processed, or a fault while fetching, ends the run with error and without finished. The tokens emitted before it stay emitted. |
| Workers.HelloScenario | ollama-chatbot/workers/ollama_worker.py:45-55 | The stream "Hel", "lo", done emits Token("Hel"), Token("lo"), Finished. |
| Workers.Percent | ollama-chatbot/workers/ollama_worker.py:95 | When total > 0 the percent times total is completed times 100; otherwise it is 0. For 0 <= completed <= total it lies in [0, 100]. |
| Workers.PercentExamples | ollama-chatbot/workers/ollama_worker.py:95 | 50 of 200 is 25 percent; a total of 0 gives 0. |
| Workers.ProgressMessageRules | ollama-chatbot/workers/ollama_worker.py:90-98 | A missing `status` becomes "". A percentage is reported exactly when both `total` and `completed` are present, and it is the guarded quotient; otherwise the message is the status alone. |
| Workers.ModelDownloadWorker.constructor | ollama-chatbot/workers/ollama_worker.py:72-75 | Stores the model name. The worker starts with `is_running` set and nothing emitted. |
| Workers.ModelDownloadWorker.Stop | ollama-chatbot/workers/ollama_worker.py:105-107 | Clears `is_running`. |
| Workers.ModelDownloadWorker.Start | ollama-chatbot/gui/dialogs.py:188 | `worker.start()`: marks the thread started. Its run is the separate Run call. |
| Workers.ReportOf | ollama-chatbot/workers/ollama_worker.py:90-98 | Definition of one progress message: the status, "" when missing, with the guarded percent exactly when both `total` and `completed` are present. |
| Workers.DownloadEvents | ollama-chatbot/workers/ollama_worker.py:85-100 | Definition of the download loop's signals. The end of the stream or a stop gives finished. A fetch fault or a malformed line gives one error. A blank line is skipped. Every record, `done` or not, emits one progress message and the loop goes on. |
| Workers.DownloadRun | ollama-chatbot/workers/ollama_worker.py:79-103 | Definition: a refused connection gives one error; otherwise the signals of DownloadEvents. |
| Workers.ModelDownloadWorker.Run | ollama-chatbot/workers/ollama_worker.py:77-103 | Posts `{name, stream: true}`. A refused connection emits one error. Otherwise the signals of the progress loop are appended, as DownloadEvents defines them. |
| Workers.ModelDownloadWorker.ReadProgress | ollama-chatbot/workers/ollama_worker.py:85-100 | The loop appends exactly DownloadEvents(lines, stopAt) to `emitted`. The flag is clear afterwards exactly when the stop landed. |
| Workers.DownloadTerminatesOnce | ollama-chatbot/workers/ollama_worker.py:79-103 | A download gives progress messages, then exactly one of finished or error. |
| Workers.DownloadIgnoresDone | ollama-chatbot/workers/ollama_worker.py:85-98 | The `done` field of a record has no effect: the download loop does not stop on it. |
| Workers.CompleteDownload | ollama-chatbot/workers/ollama_worker.py:85-100 | A download stream without broken lines, read to its end, emits one progress message per record in order, skips blank lines, then emits finished. |
| Workers.BrokenDownloadFails | ollama-chatbot/workers/ollama_worker.py:85-103 | A broken line ends the download with error and without finished. The progress already reported stays. |
| Workers.DownloadStopActsAsEndOfStream | ollama-chatbot/workers/ollama_worker.py:86-87 | A stop that lands before line k gives the same signals as a download stream cut at k. |
| Text.IsSpace | ollama-chatbot/gui/main_window.py:293 | Definition: the characters Python's `str.isspace()` accepts, and that `strip()` removes. |
| Text.LeadingSpace | ollama-chatbot/gui/main_window.py:293 | The input starts with exactly that many whitespace characters: all of them are whitespace, and the next character, if any, is not. |
| Text.ContentEnd | ollama-chatbot/gui/dialogs.py:174 | Everything from that index on is whitespace, and the character just before it, if any, is not. |
| Text.Strip | ollama-chatbot/gui/main_window.py:293 | Python's strip(). The result is empty exactly when the input is all whitespace; otherwise it starts and ends with non-whitespace. It is the slice of the input that begins right after the leading whitespace, and everything after that slice is whitespace, so nothing inside is removed. |
| Text.StripIdempotent | ollama-chatbot/gui/main_window.py:472-473 | Stripping a stripped text changes nothing. |
| Text.Prefix | ollama-chatbot/gui/main_window.py:325 | Python's `s[:n]`: the first n characters, or all of a shorter s. |
| Text.Digit | ollama-chatbot/gui/main_window.py:413 | A digit below 10 is written as the character for that digit. |
| Text.Decimal | ollama-chatbot/gui/main_window.py:413 | Python's `str(n)`: a non-empty string of digits, with no leading zero unless n is 0. |
| Text.DecimalRoundTrip | ollama-chatbot/gui/main_window.py:413 | Reading the digits of `str(n)` back gives n. |
| Text.DecimalInjective | ollama-chatbot/gui/main_window.py:413 | Different numbers are written differently. |
| MainWindow.Preview | ollama-chatbot/gui/main_window.py:325 | A text of at most 30 characters is kept whole. A longer one becomes its first 30 characters followed by "...". |
| MainWindow.SessionName | ollama-chatbot/gui/main_window.py:413 | The name is "Chat " followed by exactly `str(n)` (Decimal(n): digits, no leading zero unless n is 0), and those digits read back as n. |
| MainWindow.SessionNamesDiffer | ollama-chatbot/gui/main_window.py:413 | "Chat m" and "Chat n" differ for m != n. |
| MainWindow.LoadedName | ollama-chatbot/gui/main_window.py:566 | "Loaded" for a file without messages. Otherwise, at most 30 characters of the first message followed by "...", which is added even when nothing was cut. |
| MainWindow.WithMessages | ollama-chatbot/gui/main_window.py:322-326 | Definition: without a current session nothing changes. Otherwise the current session gets a copy of the messages and, when there is exactly one, is renamed by its preview. |
| MainWindow.AnswerKept | ollama-chatbot/gui/main_window.py:348 | Definition of the guard of finish_response: the answer is non-empty and the last message is the user's. |
| MainWindow.WithMessagesTouchesOneSession | ollama-chatbot/gui/main_window.py:322-326 | Copying messages into the current session changes only that session. It gets the messages, keeps its timestamp and model, and is named after the first message when that is its only one. |
| MainWindow.ChatbotGui.constructor | ollama-chatbot/gui/main_window.py:24-43 | Settings start at 0.7, 2000 tokens and the default system prompt. There is no chat, no answer and no worker. One session "Chat 1" exists and is current. |
| MainWindow.ChatbotGui.AddMessage | ollama-chatbot/gui/main_window.py:316-331 | Appends exactly one message whose role is user iff `is_user`. The current session then holds a copy of `messages`, and the first message names it. |
| MainWindow.ChatbotGui.SendMessage | ollama-chatbot/gui/main_window.py:291-314 | Does nothing unless the stripped input is non-empty and a model is selected. Otherwise: appends the stripped text as a user message; resets the accumulator; marks the window busy; starts a fresh worker with that prompt, the selected model and the current settings. |
| MainWindow.ChatbotGui.UpdateResponse | ollama-chatbot/gui/main_window.py:333-335 | The accumulator becomes the old one with the token appended. |
| MainWindow.ChatbotGui.FinishResponse | ollama-chatbot/gui/main_window.py:346-354 | As written: a non-empty answer with no messages fails at `messages[-1]` (crashed, nothing changes). Otherwise: an assistant message is appended iff the answer is non-empty and the last message is the user's; the accumulator is emptied and the window is ready again. |
| MainWindow.ChatbotGui.FinishResponseGuarded | ollama-chatbot/gui/main_window.py:346-354 | Corrected: an assistant message is appended iff AnswerKept holds; the accumulator is emptied and the window is ready, in every state. |
| MainWindow.ChatbotGui.HandleError | ollama-chatbot/gui/main_window.py:356-359 | Takes the same path as a finished answer, so a partial answer is kept. When AnswerKept holds, the assistant message is appended and the current session gets the new messages. Otherwise the messages and sessions are unchanged. Either way the accumulator is emptied and the window is ready. |
| MainWindow.ChatbotGui.Deliver | ollama-chatbot/gui/main_window.py:311-313 | A token appends its text to the accumulator and changes nothing else. Finished or error empty the accumulator and make the window ready. The answer is appended, and stored in the current session, exactly when AnswerKept holds; otherwise messages and sessions are unchanged. |
| MainWindow.ChatbotGui.CreateNewSession | ollama-chatbot/gui/main_window.py:409-424 | As written: appends one session "Chat n+1" (n being the old count) with no messages and the selected model, and makes it current. `messages` is left as it was. |
| MainWindow.ChatbotGui.CreateFreshSession | ollama-chatbot/gui/main_window.py:409-424 | Corrected: the same new session, with `messages` emptied together with the display, so the chat on screen is the new session's. |
| MainWindow.ChatbotGui.LoadSession | ollama-chatbot/gui/main_window.py:426-441 | The session at the index becomes current, and its messages become the chat on screen. A session with a model asks the selector for it. |
| MainWindow.ChatbotGui.RenameSession | ollama-chatbot/gui/main_window.py:460-475 | Only the chosen session's name changes, and only when the dialog was confirmed and the stripped name is non-empty; it is then the stripped name. |
| MainWindow.ChatbotGui.DeleteSession | ollama-chatbot/gui/main_window.py:477-494 | Does nothing without a current session or without confirmation. Otherwise it removes exactly the current session. If none remain, a single fresh "Chat 1" is created; else the index becomes max(0, i - 1), a valid index, and that session is loaded. The selector is asked for the loaded session's model when it has one, and otherwise for nothing. |
| MainWindow.ChatbotGui.ClearChat | ollama-chatbot/gui/main_window.py:520-525 | Empties `messages` and the current session's messages; nothing else changes. |
| MainWindow.ChatbotGui.LoadChat | ollama-chatbot/gui/main_window.py:557-581 | For a file that was read, appends one session named by LoadedName with the file's messages and model, makes it current and loads it. Otherwise nothing changes. |
| MainWindow.ChatbotGui.UpdateModelLabel | ollama-chatbot/gui/main_window.py:402-407 | The label reads "Model: " and the model, or "None". The current session records the model. |
| MainWindow.NewChatKeepsOldMessages | ollama-chatbot/gui/main_window.py:409-424 | As written: the user message "first" is added (add_message, with no answer yet), New Chat is clicked, and the user message "second" is added. The new chat then stores ["first", "second"] and stays named "Chat 2". |
| MainWindow.FreshChatTakesFirstMessage | ollama-chatbot/gui/main_window.py:316-326 | With the corrected session start, a new chat's first message is its only message and names it. |
| MainWindow.ClearingMidStreamCrashes | ollama-chatbot/gui/main_window.py:348 | Clearing the chat while an answer streams makes finish_response, as written, index an empty list. |
| MainWindow.Converse | ollama-chatbot/gui/main_window.py:291-359 | One prompt sent and answered. Nothing is sent unless the stripped input is non-empty and a model is selected, and then nothing changes. Otherwise the chat gains the stripped user message, then one assistant message that is the concatenated `response` fields of the processed lines, unless that text is empty. The current session index stays. The current session is updated first with the user message, then with the answer when there is one, and no other session changes. The worker is a fresh one for that model and prompt, and it has emitted exactly GenerationEvents of the lines. The window ends ready and in step with its session. |
| MainWindow.AnswerPrompt | ollama-chatbot/gui/main_window.py:311-359 | Once the worker started by send_message reads the lines, the chat gains one assistant message with the concatenated `response` fields, unless that text is empty. The current session then gets those messages. Otherwise messages and sessions are unchanged. |
| MainWindow.RunThread | ollama-chatbot/gui/main_window.py:314 | The started worker's thread emits exactly GenerationEvents of the reply lines. |
| MainWindow.ReceiveAnswer | ollama-chatbot/gui/main_window.py:333-354 | Feeding a terminated signal sequence to the slots leaves the accumulator, before the last signal, equal to the joined token texts so far, with the messages and sessions unchanged until then. The chat then gains that answer as one assistant message when it is non-empty, and the current session is updated with it. Otherwise sessions are unchanged. |
| MainWindow.AccumulatorStep | ollama-chatbot/gui/main_window.py:335 | Each token signal extends the joined text of the tokens before it by its own text. |
| MainWindow.TerminalAddsNoToken | ollama-chatbot/gui/main_window.py:311-313 | The terminal signal adds no token text. |
| MainWindow.ClearingMidStreamIsSafe | ollama-chatbot/gui/main_window.py:348 | The guarded finish drops that answer and leaves the window ready. |
| Dialogs.Clamp | ollama-chatbot/gui/dialogs.py:41-43 | A slider's setValue: the result lies in the range, is the value itself when that is in range, and is the point of the range nearest to it. |
| Dialogs.Settings.constructor | ollama-chatbot/gui/main_window.py:35-39 | The dictionary holds the given temperature, max tokens and system prompt. |
| Dialogs.SettingsDialog.constructor | ollama-chatbot/gui/dialogs.py:14-61 | The temperature slider (0..20) starts at the stored temperature and the tokens slider (100..4000) at the stored max tokens, each clamped to its range. The prompt box starts with the stored prompt. |
| Dialogs.SettingsDialog.MoveTemperature | ollama-chatbot/gui/dialogs.py:40-43 | The temperature slider only takes values in 0..20. |
| Dialogs.SettingsDialog.MoveTokens | ollama-chatbot/gui/dialogs.py:50-53 | The tokens slider only takes values in 100..4000. |
| Dialogs.SettingsDialog.EditSystemPrompt | ollama-chatbot/gui/dialogs.py:60 | The user edits the `system_input` text box: the box holds exactly the edited text. |
| Dialogs.SettingsDialog.SaveSettings | ollama-chatbot/gui/dialogs.py:80-85 | Writes the three keys and nothing else: the slider temperature (so [0, 2] in steps of 0.1), the slider token count (in [100, 4000]) and the prompt text verbatim. The dialog is accepted. |
| Dialogs.SettingsDialog.Cancel | ollama-chatbot/gui/dialogs.py:69 | The dialog is rejected and the settings are untouched. |
| Dialogs.ReopenAfterSave | ollama-chatbot/gui/dialogs.py:43-84 | Saving and then opening the dialog again shows exactly the saved slider values and prompt. |
| Dialogs.ModelNameOf | ollama-chatbot/gui/dialogs.py:174-175 | No name exactly when the input is all whitespace. Otherwise the name is the stripped input, non-empty, and starts and ends with non-whitespace. |
| Dialogs.ModelDownloadDialog.TypeModelName | ollama-chatbot/gui/dialogs.py:123 | The user types into the `model_input` line edit: the field holds exactly the typed text. |
| Dialogs.ModelDownloadDialog.constructor | ollama-chatbot/gui/dialogs.py:91-96 | No worker yet. The input and Download button are enabled and the progress label is hidden. |
| Dialogs.ModelDownloadDialog.StartDownload | ollama-chatbot/gui/dialogs.py:170-188 | A name that strips to nothing only warns; no worker is created and nothing changes. Otherwise the controls are disabled, the label shows "Starting download...", and a fresh worker for the stripped name is started. |
| Dialogs.ModelDownloadDialog.UpdateProgress | ollama-chatbot/gui/dialogs.py:190-192 | The label shows the worker's progress message. |
| Dialogs.ModelDownloadDialog.DownloadFinished | ollama-chatbot/gui/dialogs.py:194-199 | The label reports completion and the dialog is accepted. |
| Dialogs.ModelDownloadDialog.DownloadError | ollama-chatbot/gui/dialogs.py:201-207 | The label shows the error, and the input and Download button are enabled again. |
| Dialogs.ModelDownloadDialog.Deliver | ollama-chatbot/gui/dialogs.py:185-187 | Each worker signal reaches its slot. Progress shows its message and leaves the result and the controls. Finished shows the completion text, accepts, and leaves the controls. Error shows the error text, re-enables the input and the button, and leaves the result. |
| Dialogs.ModelDownloadDialog.CancelDownload | ollama-chatbot/gui/dialogs.py:209-214 | As written: stop() reaches the worker only if one exists and its thread is alive, and nothing else of the worker changes. The dialog is rejected in every case. The signals stay connected. |
| Dialogs.ModelDownloadDialog.CancelDownloadDetached | ollama-chatbot/gui/dialogs.py:209-214 | Corrected: the same cancel, with the worker's signals disconnected first, so later signals no longer reach the slots. |
| Dialogs.ModelDownloadDialog.DeliverConnected | ollama-chatbot/gui/dialogs.py:185-199 | A signal reaches its slot only while the worker is connected; after a detached cancel the dialog does not change at all. While connected, each slot acts as in Deliver. Progress and finished leave the controls, and error re-enables both. |
| Dialogs.StartThenCancel | ollama-chatbot/gui/dialogs.py:170-214 | Starting a download of "llama3.2" and cancelling it before the first line leaves a rejected dialog that shows "Starting download..." and a stopped worker that has emitted nothing. |
| Dialogs.CancelledDownloadReportsSuccess | ollama-chatbot/gui/dialogs.py:186-199 | As written: when that worker then runs, it breaks out of its loop and emits finished. The dialog then shows "Download complete!" and is accepted. |
| Dialogs.CancelledDownloadStaysCancelled | ollama-chatbot/gui/dialogs.py:209-214 | Corrected: the same run after a detached cancel leaves the dialog rejected and showing "Starting download...". |

## Left out

- HTTP and JSON: `requests.post`, `iter_lines` and `json.loads` are foreign
  library calls. The reply is an input sequence of classified lines, and a
  parse failure is one `Malformed` line.
- Field types: a record's fields are modelled as strings and integers. A line
  whose fields have other types is modelled as `Malformed`. This is a
  modelling choice, not what the source does in every case. A non-string
  `status` with both `total` and `completed` present is formatted by the
  f-string at ollama_worker.py:96 and emitted. A non-numeric `completed` with
  `total <= 0` never reaches the division at ollama_worker.py:95, so percent
  0 is emitted.
- Threads and signals: `QThread.start`, `wait` and `pyqtSignal.emit` are
  concurrency plumbing. Emissions are appends to `emitted`, and a
  concurrent `stop()` is the `stopAt` parameter. Interleavings of signal
  delivery with other UI actions are not modelled.
- Workers.OllamaWorker.Run: the server URL is not modelled, because it is a
  fixed constant of the network call.
- Workers.ModelDownloadWorker.Run: the progress message is kept as its
  status and percent, not as the string `f"{status}: {percent:.1f}%"`,
  because float formatting is not modelled.
- Floating point: the percent is a Dafny `real` (exact, not IEEE double).
  Temperatures are integer tenths, so the `/ 10` and `* 10` float
  conversions are exact here.
- Widgets, styles and animations: message bubbles, the chat list item
  texts, the loading label, scrolling, themes, `gui/widgets.py` and
  `gui/themes.py`. clear_chat_display is part of session switching and has
  no state of its own here.
- Message boxes and input dialogs: their answers are boolean or string
  parameters (`confirmed`, `ok`, `newName`), and the warning of
  start_download is the `warned` result.
- Clocks: `datetime.now()` is the `now` parameter.
- File I/O: `save_chat` is not modelled. The reading in `load_chat` is the
  `file` parameter, None when no file was chosen or it could not be read.
- load_models, delete_model and open_download_dialog are not modelled,
  because they depend on the network and the model selector. The selector's
  current text is the `selectedModel` parameter, and `selectModel` is the
  request to change it.
- open_settings (main_window.py:583-586) is not modelled as an operation. It
  only opens SettingsDialog on `self.settings`, and that dialog is modelled
  on the shared `Settings` object.
- closeEvent (main_window.py:588-593) is not modelled, because it is window
  teardown. It is the one caller of `OllamaWorker.stop()` in the
  application, and the `stopAt` parameter stands for the point where that
  stop lands. The `wait(1000)` that follows it is not modelled.
- Workers.OllamaWorker.constructor: the default arguments of `__init__`
  (`system_prompt=""`, `temp=0.7`, `max_tokens=2000`, ollama_worker.py:17)
  are not modelled, because the only call site (main_window.py:304-310)
  passes all five.
- main.py and the `__init__.py` files only wire things together.
- A cancelled generation emits `finished` (ollama_worker.py:46-47 and 55);
  the model follows the code, and there is no separate cancelled signal.
- A server reply line without a `response` field, such as an error record
  with `done` false, emits no token: the model follows the code.
- MainWindow.ChatbotGui.HandleError and MainWindow.ChatbotGui.Deliver go
  through FinishResponseGuarded, the corrected finish_response. They do not
  model the crash of the as-written version when the chat was cleared
  mid-stream (see Findings).
- MainWindow.ChatbotGui.DeleteSession and MainWindow.ChatbotGui.constructor
  start their new session with CreateFreshSession, the corrected
  create_new_session. In the constructor both versions agree, since
  `messages` is still empty. In delete_session, when the last session is
  deleted, the as-written version would clear the bubbles but keep
  `self.messages`. The next add_message would then store the deleted chat's
  messages in the new "Chat 1" (see Findings).
- Dialogs.ModelDownloadDialog.CancelDownload: the `wait()` for the thread
  to end is not modelled; `threadAlive` stands for `isRunning()`.

## Findings

| source | as written | input that shows it | evidently intended | confidence | as-written member | corrected member |
|---|---|---|---|---|---|---|
| ollama-chatbot/gui/main_window.py:409-424 | create_new_session appends an empty session and makes it current, but leaves `self.messages` (and clear_chat_display only clears widgets) | Add the user message "first" (add_message), click New Chat, add the user message "second": the new session stores ["first", "second"], is never renamed and stays "Chat 2". In the running app, sending "first" also appends its non-empty answer to the current session, so the new session stores ["first", <answer>, "second"] | the new session's chat starts empty, so its first message names it | high; not executed | MainWindow.NewChatKeepsOldMessages (over MainWindow.ChatbotGui.CreateNewSession) | MainWindow.ChatbotGui.CreateFreshSession, with MainWindow.FreshChatTakesFirstMessage |
| ollama-chatbot/gui/main_window.py:348 | finish_response tests `self.current_response and self.messages[-1]["role"] == "user"`, which reads `messages[-1]` even when `messages` is empty | Send "hello", receive the token "Hel", click Clear Chat before the answer ends: finished arrives with a non-empty answer and no messages, and indexing raises | an answer whose chat was cleared is dropped, and the input is enabled again | high; not executed | MainWindow.ClearingMidStreamCrashes (over MainWindow.ChatbotGui.FinishResponse) | MainWindow.ChatbotGui.FinishResponseGuarded, with MainWindow.ClearingMidStreamIsSafe |
| ollama-chatbot/gui/dialogs.py:209-214 | cancel_download stops the worker and rejects the dialog, but leaves its signals connected; the stopped loop breaks and emits finished (ollama_worker.py:86-87 and 100), which is queued to download_finished | Start a download of "llama3.2", click Cancel before the first progress line: the worker then emits finished, and the rejected dialog shows "Download complete!", reports "Model downloaded successfully!" and is accepted | a cancelled download is not reported as a success | medium; not executed | Dialogs.CancelledDownloadReportsSuccess (over Dialogs.ModelDownloadDialog.CancelDownload and Dialogs.ModelDownloadDialog.Deliver) | Dialogs.ModelDownloadDialog.CancelDownloadDetached, with Dialogs.ModelDownloadDialog.DeliverConnected and Dialogs.CancelledDownloadStaysCancelled |
