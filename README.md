# A verified model of three small tools

This project models, in Dafny, the logic at the heart of three small applications:

- **a photo-collage editor** (`photo-editor/src/collage/collage.js`). It places photos on a 4 × 6 inch canvas at 300 dpi. It picks the topmost photo under the pointer and drags it. While dragging, it snaps the photo's edges to the canvas edges, the canvas centre and the other photos' edges. It swaps the orientation, and it exports the canvas without the selection highlight.
- **an OpenRouter chat client** (`openrouter-chat/`). The model covers:
  - its store: the chat list, its titles and recency order, the open chat's messages, the default-model choice and the sidebar;
  - the line framer of the streamed reply;
  - the composer: the send guard, attachments, the model filter and the model label;
  - the send handler: request shaping, streaming the reply into the last message, and the error path.
- **an ffmpeg desktop front end** (`ffmpeg-desktop/`). The model covers:
  - the `transcode-file` handler: the output path and the builder calls it makes for the format, resolution, bitrate, codec and hardware path;
  - the window's conversion queue: idle → converting → completed or error, addressed by index, and which controls are enabled.

Modules, one per file:

| file | module | models |
|---|---|---|
| `common.dfy` | `Common` | `Option`, `filter`, and filter by index |
| `text.dfy` | `Text` | `trim`, `startsWith`, `includes`, `toLowerCase` |
| `collage.dfy` | `Collage` | the collage editor; `CollageEditor` is the editor's state |
| `stream_framer.dfy` | `StreamFramer` | the reply framer of `openRouter.streamChat` |
| `chat_store.dfy` | `ChatStore` | the store; `Store` holds its fields |
| `composer.dfy` | `Composer` | `InputArea`; `InputArea` holds the composer's state |
| `chat_area.dfy` | `ChatArea` | `handleSend` and `isAtBottom` of the conversation view |
| `transcode.dfy` | `Transcode` | the `transcode-file` handler |
| `conversion_queue.dfy` | `ConversionQueue` | the converter window; `ConverterWindow` holds its state |

How the source is mapped:

- State that the source keeps in closure variables, a zustand store or React `useState` hooks is a class. Its fields are reassigned by methods with `modifies` clauses.
- Each method's `modifies` clause names exactly the fields it may change (``modifies this`images``). Every field it does not name is unchanged after the call, and callers rely on that; this is how "only ..." and "nothing else changes" below are proved.
- Loops in the source are methods with loop invariants, each proved equal to a specification function. These are the hit test, the snap-line collection, the snap scan, `startConversion`'s `forEach`, the stream loop and the streaming callback.
- Pure computations are functions. The properties the source depends on are lemmas about them.
- Identifiers from `crypto.randomUUID()` and clock readings are parameters (`id`, `now`, `sentAt`).
- The results of I/O are parameters too: the files read, a loaded image, a received model list, the chunks of a streamed reply, the error a stream ended with, and whether a window exists.
- Alerts and IPC messages are returned values.

## Model

| member | source | states |
|---|---|---|
| `Collage.MmToPx` | photo-editor/src/collage/collage.js:87 | `mm / 25.4 * 300` as an exact relation, px × 25.4 = mm × 300; positive exactly for positive lengths |
| `Collage.MmToPxRoundTrip` | photo-editor/src/collage/collage.js:80-87 | converting to pixels and back returns the millimetres |
| `Collage.FindIndex` | photo-editor/src/collage/collage.js:227 | `images.find` by id: the first index with that id, or none when no photo has it |
| `Collage.TopmostHit` | photo-editor/src/collage/collage.js:269-281 | the scan from the last photo down returns the highest index whose border-inflated closed box holds the point, or none when no box does |
| `Collage.OthersMembers` | photo-editor/src/collage/collage.js:325-327 | the photos that give snap lines are exactly the others: the dragged photo never does |
| `Collage.XEdgesAt` | photo-editor/src/collage/collage.js:328-333 | each other photo gives, in order, its outer left edge then its outer right edge (border included) |
| `Collage.YEdgesAt` | photo-editor/src/collage/collage.js:325-337 | each other photo gives, in order, its outer top edge then its outer bottom edge |
| `Collage.SnapLinesXMembers` | photo-editor/src/collage/collage.js:313-340 | a vertical line is a candidate exactly when it is 0, W, W/2 or an outer left/right edge of another photo |
| `Collage.SnapLinesYMembers` | photo-editor/src/collage/collage.js:313-340 | a horizontal line is a candidate exactly when it is 0, H, H/2 or an outer top/bottom edge of another photo |
| `Collage.GetSnapLines` | photo-editor/src/collage/collage.js:313-340 | the loop builds `[0, W, W/2]` then two edges per other photo in array order, for each axis |
| `Collage.FirstWithinSpec` | photo-editor/src/collage/collage.js:366-373 | the first line strictly closer than 30 px to the edge; none only when no line is that close (a gap of exactly 30 never snaps) |
| `Collage.SnapTargetProperties` | photo-editor/src/collage/collage.js:363-385 | a guide exists exactly when a line is within reach; on the leading edge the outer edge lands exactly on the line, otherwise the trailing edge does; the move is under 30 px; without a guide the position is unchanged; the guide is one of the lines |
| `Collage.SnapTargetFirstWins` | photo-editor/src/collage/collage.js:366-373 | when a leading-edge line is within reach, the first such line in list order wins, whatever the trailing edge would do |
| `Collage.SnapAxis` | photo-editor/src/collage/collage.js:363-410 | the two loops with `break` compute the snap target: leading edge first, trailing edge only when the leading edge found nothing |
| `Collage.GuidesOfShape` | photo-editor/src/collage/collage.js:351-352 | at most two guides, one vertical iff the x axis snapped, one horizontal iff the y axis snapped, each at its line |
| `Collage.AutoHeight` | photo-editor/src/collage/collage.js:187-199 | with no height given, the height keeps the image's aspect ratio |
| `Collage.DraggedMovesLittle` | photo-editor/src/collage/collage.js:342-435 | a drag changes only the position: the dragged photo equals the original with x and y replaced; on each axis it moves the photo by less than 30 px from origin + pointer delta, exactly that position when the axis has no guide; at most two guides |
| `Collage.DragTo` | photo-editor/src/collage/collage.js:346-412 | the move computes the dragged photo and its guides from the other photos' snap lines |
| `Collage.CollageEditor.constructor` | photo-editor/src/collage/collage.js:80-102 | a portrait canvas of 1200 × 1800 px with nothing placed or selected |
| `Collage.CollageEditor.LoadImage` | photo-editor/src/collage/collage.js:156-171 | a decoded upload becomes the image to add; nothing else changes |
| `Collage.CollageEditor.Add` | photo-editor/src/collage/collage.js:173-222 | no image: the first alert, nothing changes; zero or empty width: the second alert, nothing changes; otherwise one photo appended last at (50, 50), sized from millimetres (height from the aspect ratio when none is given), selected, and the loaded image consumed |
| `Collage.CollageEditor.UpdateBorder` | photo-editor/src/collage/collage.js:225-234 | only the selected photo's colour and thickness change; nothing changes without a selection |
| `Collage.CollageEditor.ToggleOrientation` | photo-editor/src/collage/collage.js:237-251 | width and height swap and the orientation flips; the photos and the selection stay |
| `Collage.ToggleTwice` | photo-editor/src/collage/collage.js:237-251 | toggling twice restores the canvas |
| `Collage.CollageEditor.MouseDown` | photo-editor/src/collage/collage.js:264-303 | the selection becomes the topmost hit, or none; a drag starts from the pointer and the photo's origin only on a hit, and the tools show its border |
| `Collage.CollageEditor.MouseUp` | photo-editor/src/collage/collage.js:305-307 | the drag ends; nothing else changes |
| `Collage.CollageEditor.MouseMove` | photo-editor/src/collage/collage.js:342-435 | while dragging, the selected photo becomes the snapped one and the guides are replaced; otherwise the photos are unchanged |
| `Collage.CollageEditor.DragSelected` | photo-editor/src/collage/collage.js:358-412 | the photo at the index becomes its `Dragged` form (only x and y change) and the guides become that move's guides; the other photos stay |
| `Collage.CollageEditor.Download` | photo-editor/src/collage/collage.js:441-455 | the exported frame has no highlight, and the selection afterwards is the one before |
| `StreamFramer.JoinSplit` | openrouter-chat/src/services/openrouter.js:54 | joining the pieces of `split('\n')` with '\n' gives the text back |
| `StreamFramer.SplitJoin` | openrouter-chat/src/services/openrouter.js:54 | for newline-free pieces, splitting their join gives the pieces back |
| `StreamFramer.FramingExact` | openrouter-chat/src/services/openrouter.js:53-57 | the complete lines, each with its newline, followed by the buffer rebuild the text; the buffer holds no newline |
| `StreamFramer.FramingUnique` | openrouter-chat/src/services/openrouter.js:53-57 | any newline-free lines and rest that rebuild the text are the complete lines and the buffer: the framing is unique |
| `StreamFramer.SplitAppend` | openrouter-chat/src/services/openrouter.js:53-55 | splitting old text plus a chunk gives the old complete lines, then the split of the old buffer plus the chunk |
| `StreamFramer.CompleteLinesGrow` | openrouter-chat/src/services/openrouter.js:53-57 | complete lines only grow as text arrives; a line is handled only once its newline has arrived |
| `StreamFramer.LineEvent` | openrouter-chat/src/services/openrouter.js:58-74 | a callback only for a trimmed line starting "data: " whose payload is not "[DONE]" and parses, with content (missing reads as "") or usage; blank lines never call |
| `StreamFramer.DataLineProduces` | openrouter-chat/src/services/openrouter.js:58-71 | a parsable data payload with content or usage does produce its callback |
| `StreamFramer.EventsAppend` | openrouter-chat/src/services/openrouter.js:57-75 | the callbacks of two runs of lines are the first's then the second's |
| `StreamFramer.SkippedLineIsInert` | openrouter-chat/src/services/openrouter.js:59-74 | a skipped line, including an unparsable payload, leaves the callbacks of later lines unchanged |
| `StreamFramer.Feed` | openrouter-chat/src/services/openrouter.js:53-55 | one chunk: the handled lines with newlines plus the new buffer equal the old buffer plus the chunk; the buffer has no newline |
| `StreamFramer.HandleLines` | openrouter-chat/src/services/openrouter.js:57-75 | the `for` loop makes exactly the callbacks of its lines, in order |
| `StreamFramer.StreamChat` | openrouter-chat/src/services/openrouter.js:45-76 | over the whole stream, the callbacks are those of the complete lines of the concatenated text; the unterminated last line is left over and never handled |
| `StreamFramer.ChunkingIrrelevant` | openrouter-chat/src/services/openrouter.js:49-57 | cutting a chunk in two anywhere yields the same callbacks |
| `ChatStore.Title` | openrouter-chat/src/store/useStore.js:134 | the first 30 characters, and "..." exactly when the content is longer; at most 33 characters |
| `ChatStore.SortByRecency` | openrouter-chat/src/store/useStore.js:24 | the sort by `updatedAt`, newest first, is a permutation of the chats |
| `ChatStore.SortKeepsIds` | openrouter-chat/src/store/useStore.js:138 | sorting keeps the set of chat ids |
| `ChatStore.Touch` | openrouter-chat/src/store/useStore.js:135-145 | the chats with the id get the message time (and the new title when one is given); every other chat is untouched |
| `ChatStore.FindChat` | openrouter-chat/src/store/useStore.js:132 | `find` by id: the first chat with the id, or none when no chat has it |
| `ChatStore.ChatsAfterMessageProperties` | openrouter-chat/src/store/useStore.js:131-149 | after a message the list is newest first with the same length and ids; the open chat has the message time, the new title for a first user message in a "New Chat" and its own title otherwise; the other chats are kept |
| `ChatStore.DefaultModel` | openrouter-chat/src/store/useStore.js:45-47 | the first model whose id contains "gpt-3.5" when there is one, otherwise the first model; always a listed model |
| `ChatStore.WithContent` | openrouter-chat/src/store/useStore.js:156-157 | the last message gets the new content and the usage when one is given; id, role, model, images and time are kept |
| `ChatStore.Store.constructor` | openrouter-chat/src/store/useStore.js:6-15 | the initial state: no key, no models, "openai/gpt-3.5-turbo", no chats, no open chat, idle, sidebar open |
| `ChatStore.Store.Init` | openrouter-chat/src/store/useStore.js:18-31 | the saved key and model (empty when none) and the saved chats newest first; models are fetched exactly when a key was saved |
| `ChatStore.Store.FetchModels` | openrouter-chat/src/store/useStore.js:33-54 | no key, given or stored: nothing happens; otherwise the received list replaces the models, the default model is chosen only when none is active and the list is non-empty, a failed request changes nothing, and the fetching flag ends false |
| `ChatStore.Store.SetApiKey` | openrouter-chat/src/store/useStore.js:56-59 | only the key changes |
| `ChatStore.Store.SetActiveModel` | openrouter-chat/src/store/useStore.js:61-64 | only the active model changes |
| `ChatStore.Store.SetModels` | openrouter-chat/src/store/useStore.js:66 | only the model list changes |
| `ChatStore.Store.SetSidebarOpen` | openrouter-chat/src/store/useStore.js:68 | the sidebar takes the given state |
| `ChatStore.Store.ToggleSidebar` | openrouter-chat/src/store/useStore.js:70 | the sidebar flips |
| `ChatStore.ToggleSidebarTwice` | openrouter-chat/src/store/useStore.js:70 | toggling twice restores the sidebar |
| `ChatStore.Store.SetLoading` | openrouter-chat/src/components/ChatArea.jsx:55 | only the loading flag changes |
| `ChatStore.Store.CreateNewChat` | openrouter-chat/src/store/useStore.js:73-90 | a "New Chat" stamped now goes first, becomes the open chat, and has no messages |
| `ChatStore.Store.LoadChat` | openrouter-chat/src/store/useStore.js:92-102 | the chat opens with its history; the sidebar closes on a narrow window |
| `ChatStore.Store.DeleteChat` | openrouter-chat/src/store/useStore.js:104-111 | every chat with the id goes and the others keep their order; the open chat and its messages are cleared only if it was the deleted one |
| `ChatStore.Store.AddMessage` | openrouter-chat/src/store/useStore.js:113-150 | no open chat: nothing; otherwise exactly one message appended at the end, with the model only for an assistant message, and the chat list as `ChatsAfterMessage` describes |
| `ChatStore.Store.UpdateLastMessage` | openrouter-chat/src/store/useStore.js:152-162 | an empty list stays empty; otherwise all but the last message are kept and the last takes the content and the usage |
| `Composer.SendBlockedIff` | openrouter-chat/src/components/InputArea.jsx:52 | sending is blocked exactly while loading or when the text is all white space and there is no image |
| `Composer.SendBlocked` | openrouter-chat/src/components/InputArea.jsx:52 | the send guard, shared with the Send button's `disabled` (line 191); `SendBlockedIff` says what it means |
| `Composer.InputArea.HandleSend` | openrouter-chat/src/components/InputArea.jsx:51-59 | through the guard, the typed text and images go out once, unchanged, and the composer is cleared; the same guard as the Send button's `disabled` (line 191) |
| `Composer.InputArea.constructor` | openrouter-chat/src/components/InputArea.jsx:8-11 | the composer starts with no text, no attachments, the menu closed and an empty search |
| `Composer.InputArea.SetInput` | openrouter-chat/src/components/InputArea.jsx:181 | the text becomes the typed value; the attachments, the menu and the search stay |
| `Composer.InputArea.SetSearchQuery` | openrouter-chat/src/components/InputArea.jsx:110 | the search becomes the typed value; the text, the attachments and the menu stay |
| `Composer.InputArea.HandleKeyDown` | openrouter-chat/src/components/InputArea.jsx:44-49 | Enter without Shift sends (if the guard allows); Shift+Enter does not |
| `Composer.InputArea.RemoveImage` | openrouter-chat/src/components/InputArea.jsx:76-78 | exactly the attachment at that index goes; others keep their order; an index outside the list removes nothing |
| `Composer.FilteredModelsExact` | openrouter-chat/src/components/InputArea.jsx:82-85 | a model is listed exactly when its lower-cased name or id contains the lower-cased query |
| `Composer.FilteredModels` | openrouter-chat/src/components/InputArea.jsx:82-85 | the filtered list is no longer than the list; which models it holds is `FilteredModelsExact` |
| `Composer.FilteredModelsKeepOrder` | openrouter-chat/src/components/InputArea.jsx:82-85 | the listed models keep the list's order |
| `Composer.EmptyQueryListsAll` | openrouter-chat/src/components/InputArea.jsx:82-85 | an empty query lists every model |
| `Composer.FindModel` | openrouter-chat/src/components/InputArea.jsx:80 | `find` by id: the first model with that id, or none when no model has it |
| `Composer.CurrentModelName` | openrouter-chat/src/components/InputArea.jsx:80 | the label is never empty |
| `Composer.CurrentModelNameCases` | openrouter-chat/src/components/InputArea.jsx:80 | the label is a listed model's name, the active id, or "Select Model" only when no model is active |
| `Composer.CurrentModelNameOfListed` | openrouter-chat/src/components/InputArea.jsx:80 | an active model is shown by the name of the first listed model with its id, when that model has a name; repeated ids are allowed |
| `Composer.PickerLabel` | openrouter-chat/src/components/InputArea.jsx:97 | the button is never blank: "Loading Models..." while the list is fetched, otherwise a listed model's name, the active id, or "Select Model" only when no model is active |
| `Composer.InputArea.SelectModel` | openrouter-chat/src/components/InputArea.jsx:123 | picking a model makes it active in the store, closes the menu and clears the search |
| `Composer.InputArea.ToggleModelMenu` | openrouter-chat/src/components/InputArea.jsx:92 | the menu opens or closes |
| `Composer.InputArea.ClickOutside` | openrouter-chat/src/components/InputArea.jsx:35-39 | a press outside closes the menu |
| `Composer.InputArea.AttachImage` | openrouter-chat/src/components/InputArea.jsx:67-69 | a finished file read appends its data URL |
| `ChatArea.ToApiContent` | openrouter-chat/src/components/ChatArea.jsx:68-71 | with images: a text part followed by one image part per image in order; without: the plain string |
| `ChatArea.ApiContentRoundTrip` | openrouter-chat/src/components/ChatArea.jsx:75-78 | the text and the images can be read back from the content sent |
| `ChatArea.ApiMessages` | openrouter-chat/src/components/ChatArea.jsx:66-80 | one entry per message shown, in order, with its role and content, then the new user message last |
| `ChatArea.AccumulatedAppend` | openrouter-chat/src/components/ChatArea.jsx:87-92 | the reply of two runs of callbacks is the first's contents then the second's |
| `ChatArea.ReplyIgnoresChunking` | openrouter-chat/src/components/ChatArea.jsx:89-92 | the reply text does not depend on how the stream was cut into chunks |
| `ChatArea.Streamed` | openrouter-chat/src/components/ChatArea.jsx:87-92 | after the callbacks the assistant message holds their contents joined and the latest usage |
| `ChatArea.FinalReply` | openrouter-chat/src/components/ChatArea.jsx:97-99 | on an error the message text is "Error: " and the message; otherwise the streamed reply |
| `ChatArea.Accumulate` | openrouter-chat/src/components/ChatArea.jsx:87-92 | after k callbacks the last message's content is the first k contents joined; nothing else in the store changes |
| `ChatArea.HandleSend` | openrouter-chat/src/components/ChatArea.jsx:48-103 | no key: only the alert, and loading and messages are untouched; otherwise the request carries the key, the active model and the history shown plus the new message; the user and assistant messages are added, the reply or error text fills the last one, and loading ends false on both paths |
| `ChatArea.PostTurn` | openrouter-chat/src/components/ChatArea.jsx:58-83 | the user message and then an empty assistant message are appended, and the chat list is updated twice |
| `ChatArea.ReceiveReply` | openrouter-chat/src/components/ChatArea.jsx:89-99 | the callbacks then the error text leave the assistant message as `FinalReply` |
| `ChatArea.AtBottomMonotone` | openrouter-chat/src/components/ChatArea.jsx:33 | the view is at the bottom exactly when the gap below it is at most 10 px, for every gap; scrolling further down never leaves the bottom |
| `ChatArea.IsAtBottom` | openrouter-chat/src/components/ChatArea.jsx:33 | the at-bottom test: the gap below the view is at most 10 px (its properties are `AtBottomMonotone`) |
| `Transcode.CallsAppend` | ffmpeg-desktop/electron/main.ts:78-120 | the calls of one kind in two runs of calls are the first's then the second's |
| `Transcode.PlanCalls` | ffmpeg-desktop/electron/main.ts:78-120 | the calls of each kind are those of the handler's branches, in order |
| `Transcode.PlanSizes` | ffmpeg-desktop/electron/main.ts:81-83 | `size(resolution)` exactly when the resolution is set and not "original"; then "320x?" for a GIF |
| `Transcode.PlanBitrates` | ffmpeg-desktop/electron/main.ts:86-103 | the user's rate with "k" exactly when one is given, else 2500k on the hardware path, else none; at most one, exactly one on the hardware path |
| `Transcode.PlanCodecs` | ffmpeg-desktop/electron/main.ts:91-112 | hardware path: hevc_videotoolbox for "hevc", h264_videotoolbox otherwise; software: libx265, libx264, or none for "auto"; never for a format other than mp4/mov/mkv; at most one |
| `Transcode.PlanOverrides` | ffmpeg-desktop/electron/main.ts:116-120 | fps 10 exactly for a GIF, no video exactly for an MP3 |
| `Transcode.PlanEffectiveSize` | ffmpeg-desktop/electron/main.ts:81-83 | the size the encoder keeps is "320x?" for a GIF whatever was requested, the requested one otherwise |
| `Transcode.PlanOps` | ffmpeg-desktop/electron/main.ts:78-120 | the handler's `if`s build exactly the plan, starting with `toFormat(format)` |
| `Transcode.OutputBesideInput` | ffmpeg-desktop/electron/main.ts:72-74 | the output lies in the input's directory and is named stem + "_converted." + format |
| `Transcode.HandleTranscode` | ffmpeg-desktop/electron/main.ts:69-137 | without a window nothing happens; otherwise the command reads the file, makes the planned calls and saves beside the input |
| `Transcode.Notify` | ffmpeg-desktop/electron/main.ts:122-136 | nothing is sent once the window is gone; otherwise every message carries the request id, a missing percentage is sent as 0, the end carries the output path and the error its message |
| `ConversionQueue.Round` | ffmpeg-desktop/src/App.tsx:73 | `Math.round`: the nearest integer, halves up |
| `ConversionQueue.Dropped` | ffmpeg-desktop/src/App.tsx:40-44 | the dropped files in order, each idle with no progress |
| `ConversionQueue.UpdateAt` | ffmpeg-desktop/src/App.tsx:72-83 | only the file at the id changes: progress rounded with the status kept, completed at 100, or error with the progress kept; an id outside the list changes nothing |
| `ConversionQueue.IdleRequestsSound` | ffmpeg-desktop/src/App.tsx:55-65 | each request names an idle file by its index, with its path and the window's options |
| `ConversionQueue.IdleRequestsComplete` | ffmpeg-desktop/src/App.tsx:55-65 | every idle file gets a request |
| `ConversionQueue.IdleRequestsOrdered` | ffmpeg-desktop/src/App.tsx:55-68 | the requests go out in list order |
| `ConversionQueue.Started` | ffmpeg-desktop/src/App.tsx:66 | idle files become converting at 0; the others are untouched |
| `ConversionQueue.StartedLeavesNoIdle` | ffmpeg-desktop/src/App.tsx:53-69 | after Start no file in the list is idle |
| `ConversionQueue.SendIdle` | ffmpeg-desktop/src/App.tsx:55-68 | the `forEach` sends the idle files' requests and marks them converting |
| `ConversionQueue.StartDisabledSendsNothing` | ffmpeg-desktop/src/App.tsx:220 | a disabled Start button (empty list or all completed) holds back no request |
| `ConversionQueue.EnabledStartMaySendNothing` | ffmpeg-desktop/src/App.tsx:220 | an enabled Start button may send nothing: a list with only a failed file |
| `ConversionQueue.StartDisabled` | ffmpeg-desktop/src/App.tsx:220 | Start is disabled for an empty list or one whose every file has completed |
| `ConversionQueue.CodecEnabled` | ffmpeg-desktop/src/App.tsx:181 | the codec select is enabled for mp4, mov and mkv only |
| `ConversionQueue.ResolutionDisabled` | ffmpeg-desktop/src/App.tsx:195 | the resolution select is disabled for mp3 only |
| `ConversionQueue.BitrateDisabled` | ffmpeg-desktop/src/App.tsx:213 | the bitrate field is disabled for gif only |
| `ConversionQueue.HwAccelShown` | ffmpeg-desktop/src/App.tsx:162 | the hardware box is shown on a Mac for mp4 and mov only |
| `ConversionQueue.RemovalRetargetsEvents` | ffmpeg-desktop/src/App.tsx:49-83 | removing a file while converting shifts the later files' indices, so a later event updates the wrong entry or none |
| `ConversionQueue.CodecSelectMatchesHandler` | ffmpeg-desktop/src/App.tsx:181 | the codec select is enabled exactly for mp4, mov and mkv, the formats the handler gives a codec; for the others the codec has no effect |
| `ConversionQueue.HwAccelShownOnlyForContainers` | ffmpeg-desktop/src/App.tsx:162 | the hardware box shows on a Mac exactly for mp4 and mov |
| `ConversionQueue.DisabledControlsStillApply` | ffmpeg-desktop/src/App.tsx:195-213 | a disabled resolution (mp3) or bitrate (gif) still reaches the request and is applied |
| `ConversionQueue.ConverterWindow.constructor` | ffmpeg-desktop/src/App.tsx:15-21 | no files, mp4, hardware on, auto codec, original resolution, no bitrate |
| `ConversionQueue.ConverterWindow.HandleDrag` | ffmpeg-desktop/src/App.tsx:25-33 | entering or moving over the zone highlights it; leaving clears the highlight |
| `ConversionQueue.ConverterWindow.HandleDrop` | ffmpeg-desktop/src/App.tsx:35-47 | the dropped files are appended, each idle, after the existing entries in their order |
| `ConversionQueue.ConverterWindow.RemoveFile` | ffmpeg-desktop/src/App.tsx:49-51 | exactly the file at the index goes; the rest keep their order |
| `ConversionQueue.ConverterWindow.StartConversion` | ffmpeg-desktop/src/App.tsx:53-69 | one request per idle file with its index as id; idle files become converting at 0 |
| `ConversionQueue.ConverterWindow.OnProgress` | ffmpeg-desktop/src/App.tsx:72-74 | the file at the id shows the rounded percentage |
| `ConversionQueue.ConverterWindow.OnComplete` | ffmpeg-desktop/src/App.tsx:76-78 | the file at the id is completed at 100 |
| `ConversionQueue.ConverterWindow.OnError` | ffmpeg-desktop/src/App.tsx:80-83 | the file at the id has failed |
| `ConversionQueue.DropStartComplete` | ffmpeg-desktop/src/App.tsx:35-78 | an example run, not a general property: one file dropped into an empty list, started and completed, ends completed at 100, and Start is then disabled |
| `Common.FilterMembers` | openrouter-chat/src/store/useStore.js:107 | `filter` keeps exactly the elements that pass |
| `Common.DropIndexSlices` | ffmpeg-desktop/src/App.tsx:50 | filtering by index removes exactly that position; an index outside the list removes nothing |
| `Text.TrimEmptyIffBlank` | openrouter-chat/src/components/InputArea.jsx:52 | `trim()` gives "" exactly for an all-white-space string |
| `Text.Trim` | openrouter-chat/src/services/openrouter.js:58 | `trim()` leaves no white space at either end and is no longer than the input |
| `Text.TrimCutsOnlyWhitespace` | openrouter-chat/src/services/openrouter.js:58 | the input is white space, then the trimmed string, then white space: `trim()` cuts nothing else |
| `Text.StartsWith` | openrouter-chat/src/services/openrouter.js:59 | `startsWith`: the prefix is the string's first characters |
| `Text.Contains` | openrouter-chat/src/components/InputArea.jsx:83-84 | `includes`: the substring is a prefix of some suffix; `ContainsOccurrence` and `ContainsHasOccurrence` tie it to an offset |
| `Text.ContainsOccurrence` | openrouter-chat/src/components/InputArea.jsx:83-84 | an occurrence at any offset makes `includes` hold |
| `Text.ContainsHasOccurrence` | openrouter-chat/src/components/InputArea.jsx:83-84 | `includes` holds only where the substring occurs at some offset |
| `Text.Lower` | openrouter-chat/src/components/InputArea.jsx:83-84 | `toLowerCase`: the same length, each character lower-cased on its own (A to Z only, see below) |

## Left out

- Drawing is left out: the canvas rendering, guide stroking and `toDataURL` in the collage editor. So is `getCanvasCoords`, which reads the page layout. Pointer positions are given in canvas pixels. `Download` returns the frame that is drawn.
- JavaScript numbers are modelled as exact reals. Floating-point rounding is not modelled, so the exact landing of a snapped edge on its line, the `mmToPx` round trip and the comparisons with the 30 px snap threshold hold of the model's arithmetic and may differ by a rounding error in doubles.
- Decoded images have positive width and height (the `Dimension` type of the collage model). An image with a zero side, for which `aspect` at photo-editor/src/collage/collage.js:188 is Infinity or NaN, is not modelled.
- Reading files and the network are not modelled. These are the image upload's `FileReader`/`Image` decoding, the composer's `FileReader`, the model list and chat request `fetch`, and the byte decoding of the reply. Their results are parameters.
- Persistence (`storage.*`) is not modelled, and neither is `saveCurrentChat`, which only persists. Saved settings, chats and histories are given to `Init` and `LoadChat`.
- Async interleavings are not modelled. Every action runs to completion before the next one starts, so `addMessage`'s read of the chats before its `await` cannot be raced.
- `ChatStore.Store.FetchModels`: the received list is taken as already sorted. The `localeCompare` ordering by name is not modelled.
- `ChatStore.SortByRecency`: only sortedness and the permutation are stated. Whether chats with equal times keep their order (as the stable JavaScript sort does) is not stated.
- `ChatStore.Title`: characters are Unicode scalar values. JavaScript slices UTF-16 code units, so the two readings of "30 characters" differ for text outside the Basic Multilingual Plane.
- `Text.Lower`: this maps only A–Z. Unicode case mapping beyond ASCII is not modelled.
- `ChatArea.HandleSend`: a failure is modelled as ending the stream after the chunks that arrived. A failed HTTP status, which fails before any chunk, is the case with no chunks. The alert dialog is the `alerted` result, and the dynamic import is not modelled.
- `ChatArea.HandleSend`: without an open chat, the streaming callbacks are skipped rather than run. The store's message list is then empty, and each callback would leave it unchanged.
- The view's auto-scroll effect (`scrollIntoView`) is not modelled. Only the at-bottom test is.
- The option setters of the converter window (`setFormat`, `setCodec` and the others) are plain assignments and are not modelled. Neither is the isMac test on `navigator.platform`, which is the constructor's parameter.
- `Transcode.Dirname`, `Basename` and `JoinPath` model POSIX paths with '/' as the only separator. Node's `path.win32`, used on Windows, is not modelled.
- `Transcode.JoinPath` only puts one '/' between the directory and the name, and does not normalise as `path.join` does. For "a//b.mp4" the model's output path is "a//b_converted.mp4" where Node gives "a/b_converted.mp4". `.` and `..` segments are kept as well.
- `Transcode.Dirname` and `Basename` differ from Node for a path with a trailing separator. For "a/b/" the model gives "a/b" and "", where Node gives "a" and "b". The handler is only given paths of dropped files, which have no trailing separator.
- The encoder itself is not modelled. For `transcode-file`, the model is the list of builder calls and the events sent back. Console logging is not modelled.
- Text-area resizing, input focus and button styling in the composer are presentation and are not modelled.
- `ConversionQueue.Round`: progress is a real number. NaN and infinities are not modelled.
