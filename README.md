# Social post studio: the logic inside the components

A model in Dafny of the sequential logic of a React social-media studio. The
logic sits inside its pages and components. Rendering is not modelled; the
state each handler computes is.

- **ChatStream** (`chat_stream.dfy`): `streamChat` of the AI agent page.
  - The incremental decoder of the streamed reply. Its buffer takes one chunk
    at a time and gives up one `\n`-terminated line at a time.
  - A trailing `\r` is dropped and lines without the `data: ` prefix are
    ignored. The trimmed payload `[DONE]` ends the call.
  - A payload that does not parse is put back in front of the buffer, and the
    loop waits for the next chunk.
  - `JSON.parse` together with the read of `choices[0].delta.content` is a
    `Parser` parameter. It either fails or gives an optional content.
  - `Drain` specifies the inner line loop and `Feed` the outer read loop.
    `StreamEvents` gives the callbacks of one call. The loops themselves
    (`DrainLines`, `ReadBody`) are methods proved equal to these
    specifications.
- **AIAgent** (`ai_agent.dfy`): the chat page's state (messages, input,
  loading flag, error).
  - The `send` guard.
  - The `upsert` accumulator behind `onDelta`.
  - `newConversation`.
  - A class `ChatPage` whose `Send` runs the callbacks in a loop. It is proved
    equal to the functional `SendSpec`.
- **ChatInput** (`chat_input.dfy`): the one-field chat input box and its
  submit guard.
- **OutputGallery** (`output_gallery.dfy`):
  - The gallery's status filter.
  - The sort by rank: scheduled before draft, draft before posted.
    `Array.prototype.sort` is stable and is modelled by insertion sort. That
    sort is proved to produce the one stable arrangement by status.
  - `formatTime`, 24-hour "HH:MM" to 12-hour "h:MM AM/PM".
  - The choice between the liked-by line and the date and time on a card.
- **PostDetailModal** (`post_detail_modal.dfy`):
  - The initial platform selection and `togglePlatform` on a list of ids.
  - The record `handleSave` hands back.
  - The carousel dots.
  - The caption preview and its hashtag line.
- **EditPostModal** (`edit_post_modal.dfy`):
  - The list of platforms with `selected` flags, initialised by a
    case-insensitive match against the post's platforms, and its toggle.
  - The fallbacks of the schedule button.
  - The schedule view's time picker.
- **PostsContext** (`posts_context.dfy`): the twelve initial posts and
  `addPost`.
- **StudioMockup** (`studio_mockup.dfy`): the upload area.
  - A class over `uploadedImages` and `isDragging`.
  - `handleFiles` keeps the image files and appends the truthy results of
    their loads.
  - `removeImage` and `hasImages`.
- **Text** (`text.dfy`) and **Seqs** (`seqs.dfy`): the JavaScript string
  operations and `Array.prototype.filter`, with the facts about them that
  the components rely on.
  - String operations: `trim` with the ECMAScript white-space set,
    `indexOf`, `split`, `join`, `toLowerCase`, `parseInt` and `String(n)`.

The model follows the code where it differs from an evident intention.
- After a payload fails to parse, the line already ended in `\n`, so it is
  complete. It is parsed again at the front of the buffer after every later
  chunk, and it fails again. From then on nothing is delivered and a later
  `[DONE]` is never seen; `StalledAfterParseError` proves this.
- The source does not say whether this is intended, so it is stated as a
  property of the model and not as a finding.

## Model

| member | source | states |
|---|---|---|
| ChatStream.Drain | src/pages/AIAgent.tsx:46-59 | The inner line loop over one buffer. When it runs out of lines, the buffer it leaves holds no `\n`. |
| ChatStream.Classify | src/pages/AIAgent.tsx:50-58 | Definition. A complete line is classified after one trailing `\r` is dropped. Without the `data: ` prefix it is ignored. Its trimmed payload is `[DONE]`, malformed, or a parsed optional content. |
| ChatStream.Feed | src/pages/AIAgent.tsx:41-60 | Definition of the read loop. Each chunk is appended to the buffer and the buffer is drained, until `[DONE]`. `FeedReadsConcatenation` relates it to one drain of the whole text. |
| ChatStream.BodyEvents | src/pages/AIAgent.tsx:37-61 | Definition. Every delta of the read loop becomes an `onDelta`. `onDone` follows unless the read rejected before `[DONE]`. |
| ChatStream.StreamEvents | src/pages/AIAgent.tsx:21-61 | Definition of one call's callbacks. A rejected `fetch` makes none. A failed or bodiless response makes one `onError`. Any other response makes the body's callbacks. |
| ChatStream.FailureMessage | src/pages/AIAgent.tsx:30-35 | Definition of the error text: the rate-limit text for 429, the credits text for 402, the connection text for any other status. |
| ChatStream.DrainLines | src/pages/AIAgent.tsx:46-59 | The `while ((idx = buf.indexOf("\n")) !== -1)` loop gives exactly the deltas, remaining buffer and exit that `Drain` specifies. |
| ChatStream.ClassifyLine | src/pages/AIAgent.tsx:50-58 | The handling of one line in the loop body: strip `\r`, test the `data: ` prefix, trim, compare with `[DONE]`, parse. It gives the line kind `Classify` defines and the stripped line. |
| ChatStream.ReadBody | src/pages/AIAgent.tsx:37-61 | The read loop and the final `onDone` make exactly the callbacks `BodyEvents` specifies. |
| ChatStream.StreamChat | src/pages/AIAgent.tsx:21-61 | One call makes exactly the callbacks `StreamEvents` specifies, error branches included. |
| ChatStream.DrainCutsFirstLine | src/pages/AIAgent.tsx:47-49 | Only the text before the first `\n` is a line. The buffer goes on with exactly the text after it. |
| ChatStream.UnterminatedTailStays | src/pages/AIAgent.tsx:47 | A buffer without `\n` delivers nothing and stays buffered whole. |
| ChatStream.CarriageReturnIgnored | src/pages/AIAgent.tsx:50 | A line ending in `\r\n` is handled exactly as the same line ending in `\n`. |
| ChatStream.NonDataLineIgnored | src/pages/AIAgent.tsx:51 | A line without the `data: ` prefix delivers nothing and does not stop the loop. |
| ChatStream.DoneMarkerStops | src/pages/AIAgent.tsx:52-53 | `[DONE]` stops the loop at once with nothing delivered, whatever lines follow in the buffer. |
| ChatStream.PayloadDelivered | src/pages/AIAgent.tsx:54-57 | A parsed payload delivers its content first when it is a non-empty string, and nothing otherwise. |
| ChatStream.MalformedLinePushedBack | src/pages/AIAgent.tsx:58 | A payload that does not parse leaves `line + "\n" + rest` as the buffer and stops the loop with nothing delivered. |
| ChatStream.ClassifyStripCR | src/pages/AIAgent.tsx:50-52 | Removing one more `\r` from a stripped line does not change how it is classified. |
| ChatStream.MalformedAgain | src/pages/AIAgent.tsx:58 | The buffer pushed back after a parse failure again starts with a complete line that fails to parse. |
| ChatStream.DrainAfterLines | src/pages/AIAgent.tsx:47-57 | Complete lines with no `[DONE]` and no parse failure deliver their payloads in order, then the loop goes on with what follows them. |
| ChatStream.FlowingLinesDeliverInOrder | src/pages/AIAgent.tsx:47-57 | Such lines followed by an unterminated tail deliver their contents in line order and leave exactly the tail. |
| ChatStream.LinesBeforeDoneOnly | src/pages/AIAgent.tsx:52-53 | After `[DONE]` nothing more is delivered. The deltas are those of the lines before it. |
| ChatStream.DrainAppend | src/pages/AIAgent.tsx:44-59 | Appending text to the buffer only extends the drain: a loop that ran out of lines goes on into the new text, and a loop that stopped stops at the same place. |
| ChatStream.ParseErrorKeepsLine | src/pages/AIAgent.tsx:58 | Whenever the loop stops on a parse failure, the buffer left starts with a complete line that fails to parse. |
| ChatStream.MalformedStartStops | src/pages/AIAgent.tsx:47-58 | A buffer starting with such a line stops the loop at once with nothing delivered, whatever is appended to it. |
| ChatStream.StalledAfterParseError | src/pages/AIAgent.tsx:41-60 | After a parse failure, no later chunk delivers a delta, and a later `[DONE]` is never seen. |
| ChatStream.FeedReadsConcatenation | src/pages/AIAgent.tsx:41-60 | How the body is cut into chunks does not matter. The read loop delivers, and stops on `[DONE]`, exactly as one pass of the line loop over the concatenated text would. |
| ChatStream.DoneIgnoresLaterChunks | src/pages/AIAgent.tsx:53 | Once `[DONE]` has been seen, later chunks change nothing. |
| ChatStream.FailedResponseReportsError | src/pages/AIAgent.tsx:30-35 | A response that is not ok or has no body calls `onError` once. The message is the rate-limit text for 429, the credits text for 402 and the connection text otherwise. `onDone` is never called. |
| ChatStream.CallbackShape | src/pages/AIAgent.tsx:30-61 | Every callback but the last is `onDelta`. An `onError` is the only callback of its call. |
| ChatStream.BodyReadAsOneText | src/pages/AIAgent.tsx:37-61 | For a readable body, the callbacks are those of one line pass over the whole text, then `onDone` unless the read rejected before `[DONE]`. |
| ChatStream.WellFormedStream | src/pages/AIAgent.tsx:37-61 | Take a body that reads as well-formed data lines, however its chunks cut the text, even through a line. It delivers the payloads' contents in order, then `onDone` unless the read rejected. |
| AIAgent.UpsertAssistant | src/pages/AIAgent.tsx:97-103 | A trailing assistant message is replaced in place and the length is kept. Otherwise one assistant message is appended. Either way the list ends with the assistant's text. |
| AIAgent.Upserted | src/pages/AIAgent.tsx:94-103 | Definition of the messages after `upsert` has run once per chunk, each time with `assistantSoFar` extended by that chunk. |
| AIAgent.Dispatch | src/pages/AIAgent.tsx:94-111 | Definition of the state after the callbacks run in order. `onDelta` upserts, `onDone` clears loading, and `onError` sets the error and clears loading. |
| AIAgent.SendSpec | src/pages/AIAgent.tsx:85-112 | Definition of `send`. A refused text changes nothing. Otherwise the trimmed user message is appended, the input is cleared, loading is set and the error is cleared, and then the call's callbacks run. |
| AIAgent.UpsertReplaces | src/pages/AIAgent.tsx:97-103 | An upsert gives the conversation without its trailing reply, followed by the new reply. |
| AIAgent.UpsertsAccumulate | src/pages/AIAgent.tsx:94-103 | After any non-empty sequence of chunks, the messages are those before the reply, without any trailing assistant message, followed by one assistant message. Its text is the chunks concatenated in order. |
| AIAgent.DispatchDeltas | src/pages/AIAgent.tsx:94-111 | Running the `onDelta` callbacks of a run of deltas upserts each of them in turn and accumulates their text. |
| AIAgent.RefusedSendChangesNothing | src/pages/AIAgent.tsx:86 | `send` of white-space-only text, or while a reply is awaited, leaves the whole state unchanged. |
| AIAgent.AcceptedSend | src/pages/AIAgent.tsx:85-111 | An accepted `send` runs the callbacks from the state with the trimmed user message appended, the input empty, loading set and no error. |
| AIAgent.SendWithoutResponse | src/pages/AIAgent.tsx:85-111 | When `fetch` rejects, the user's message stays, the input is empty, no error is shown and loading stays set. |
| AIAgent.SendFailedResponse | src/pages/AIAgent.tsx:85-111 | A failed response leaves the user's message and an empty input. Loading is cleared and the status's message is shown. |
| AIAgent.SendStreamedReply | src/pages/AIAgent.tsx:85-111 | A read body leaves the user's message followed by one assistant message holding all deltas in order, when there was any. Loading is cleared unless the read rejected before `[DONE]`. |
| AIAgent.UpsertedAfterAsking | src/pages/AIAgent.tsx:94-103 | After the user's message, the deltas add exactly the reply and leave the user's message in place. |
| AIAgent.SendButtonMatchesGuard | src/pages/AIAgent.tsx:162 | The send button is enabled exactly when `send(input)` passes its guard. |
| AIAgent.NewConversationSpec | src/pages/AIAgent.tsx:118 | The messages and the error are cleared. The input and the loading flag are kept. |
| AIAgent.ChatPage.constructor | src/pages/AIAgent.tsx:65-68 | The page starts with no messages, an empty input, no loading and no error. |
| AIAgent.ChatPage.SetInput | src/pages/AIAgent.tsx:143-148 | The text area's `onChange` sets the input and nothing else. It is only called while no reply is awaited, because the text area is disabled during loading. |
| AIAgent.ChatPage.Send | src/pages/AIAgent.tsx:85-112 | The imperative handler leaves exactly the state `SendSpec` gives. |
| AIAgent.ChatPage.RunCallbacks | src/pages/AIAgent.tsx:94-111 | Running the callbacks one by one leaves the state `Dispatch` gives, with `assistantSoFar` starting empty. |
| AIAgent.ChatPage.NewConversation | src/pages/AIAgent.tsx:118 | Leaves the state `NewConversationSpec` gives. |
| ChatInput.ChatInputBox.constructor | src/components/chat/ChatInput.tsx:12 | The field starts empty. |
| ChatInput.ChatInputBox.OnChange | src/components/chat/ChatInput.tsx:36 | Typing sets the field. |
| ChatInput.ChatInputBox.HandleSubmit | src/components/chat/ChatInput.tsx:14-20 | `onSend` is called exactly when the send button is enabled. It receives the trimmed, non-empty text, and the field is cleared. Otherwise the field is unchanged. |
| OutputGallery.FilterAllKeepsAll | src/pages/OutputGallery.tsx:210-216 | The filter "all" keeps every post. |
| OutputGallery.FilterPosts | src/pages/OutputGallery.tsx:210-216 | Definition of the filter step: the posts the status filter shows, in order. |
| OutputGallery.Sort | src/pages/OutputGallery.tsx:217-220 | Definition of the comparator sort as a stable insertion sort by `statusOrder`. `SortIsByStatus`, `SortPermutes` and `SortStable` state its properties. |
| OutputGallery.SortedAndFiltered | src/pages/OutputGallery.tsx:209-220 | Definition of `sortedAndFilteredPosts`: filter, then sort. `GalleryList` states the list it gives. |
| OutputGallery.FilterOnlyExact | src/pages/OutputGallery.tsx:210-216 | A status filter keeps each post of that status as often as it occurs, and no other post. |
| OutputGallery.Rank | src/pages/OutputGallery.tsx:218 | `statusOrder` ranks the three statuses 0, 1 and 2. |
| OutputGallery.KeepRank | src/pages/OutputGallery.tsx:210-216 | Every post a status filter keeps has that status. |
| OutputGallery.InsertBetween | src/pages/OutputGallery.tsx:217-220 | Inserting a post goes after every post of rank at most its own and before every post of higher rank. |
| OutputGallery.InsertIntoGroups | src/pages/OutputGallery.tsx:217-220 | Inserting into the three rank groups adds the post at the end of its own group. |
| OutputGallery.SortIsByStatus | src/pages/OutputGallery.tsx:217-220 | The sort gives the scheduled posts, then the drafts, then the posted ones, each group in its original order. |
| OutputGallery.SortOrdered | src/pages/OutputGallery.tsx:217-220 | Every scheduled post precedes every draft, and every draft precedes every posted post. |
| OutputGallery.SortPermutes | src/pages/OutputGallery.tsx:217-220 | The sorted list is a permutation of the list sorted. |
| OutputGallery.SortStable | src/pages/OutputGallery.tsx:217-220 | The sort is stable: the posts of any one status come out in the order they went in. |
| OutputGallery.KeepOfGroups | src/pages/OutputGallery.tsx:210-220 | Filtering the grouped list by a status gives that status's posts in original order. |
| OutputGallery.GalleryList | src/pages/OutputGallery.tsx:209-220 | With a status filter the list is that status's posts in their order. With "all" it is every post, grouped stably by status. |
| OutputGallery.JsRem | src/pages/OutputGallery.tsx:200 | JavaScript's `%` truncates toward zero. It agrees with the mathematical remainder on non-negative operands and is always smaller than the divisor in magnitude. |
| OutputGallery.Hour12 | src/pages/OutputGallery.tsx:200 | `h % 12 \|\| 12` is 12 for `NaN`. For a non-negative hour it is from 1 to 12 and congruent to the hour modulo 12. |
| OutputGallery.FormatTime | src/pages/OutputGallery.tsx:196-202 | Definition of `formatTime`. The text before the first `:` is read with `parseInt` as the hour. The text after it is the minutes, or "undefined" without a colon. |
| OutputGallery.FormatTimeParts | src/pages/OutputGallery.tsx:196-202 | For "hours:minutes", the hour is taken from the text before the colon and the minutes are copied verbatim. |
| OutputGallery.FormatTimeNoColon | src/pages/OutputGallery.tsx:196-202 | A time without a colon shows the minutes as "undefined". |
| OutputGallery.TwoDigits | src/pages/OutputGallery.tsx:31 | An hour from 0 to 23 written as the posts write it ("18" in "18:00") has two characters and no colon. |
| OutputGallery.ParseTwoDigits | src/pages/OutputGallery.tsx:198 | `parseInt` reads a two-digit hour back as its value. |
| OutputGallery.FormatDayTime | src/pages/OutputGallery.tsx:196-202 | For an hour from 00 to 23, the shown hour is from 1 to 12 as `h % 12 \|\| 12`. The minutes are verbatim and the suffix is "PM" exactly from 12 on, so 00 is 12 AM and 12 is 12 PM. |
| OutputGallery.CardFooter | src/pages/OutputGallery.tsx:323-342 | The liked-by line appears exactly for a posted post with truthy `likes` and `likedBy`, and shows them. Otherwise the card shows the date and the formatted time. |
| PostDetailModal.Open | src/components/PostDetailModal.tsx:42-48 | The modal opens with the post's caption, date and time, and with its lower-cased platform as the only selection. |
| PostDetailModal.GalleryPlatformsListed | src/components/PostDetailModal.tsx:32-43 | The gallery's platform names lower-case to ids of the modal's platform table. |
| PostDetailModal.RemoveAll | src/components/PostDetailModal.tsx:65 | Definition of `prev.filter(p => p !== id)`. |
| PostDetailModal.TogglePlatform | src/components/PostDetailModal.tsx:62-68 | Definition of `togglePlatform`. An id that is present is removed, and any other id is appended. |
| PostDetailModal.RemoveAllMembers | src/components/PostDetailModal.tsx:65 | `filter(p => p !== id)` keeps exactly the listed ids other than `id`. |
| PostDetailModal.RemoveAbsent | src/components/PostDetailModal.tsx:65 | Removing an id that is not there changes nothing. |
| PostDetailModal.RemoveAllKeepsNoDuplicates | src/components/PostDetailModal.tsx:65 | Removing an id keeps a duplicate-free list duplicate-free. |
| PostDetailModal.ToggleFlipsMembership | src/components/PostDetailModal.tsx:62-68 | Toggling flips the id's membership. A present id loses every occurrence; an absent one is appended at the end. |
| PostDetailModal.ToggleKeepsOthers | src/components/PostDetailModal.tsx:62-68 | The other ids keep their membership and their relative order. |
| PostDetailModal.ToggleKeepsNoDuplicates | src/components/PostDetailModal.tsx:62-68 | Toggling keeps a list free of repeated ids. |
| PostDetailModal.ToggleTwiceFromAbsent | src/components/PostDetailModal.tsx:62-68 | Selecting an absent id and then deselecting it gives the list back. |
| PostDetailModal.Save | src/components/PostDetailModal.tsx:70-77 | The saved record is the post with the edited caption, date and time. Every other field, the platform included, is the post's own. |
| PostDetailModal.SaveIgnoresSelection | src/components/PostDetailModal.tsx:70-77 | The platform selection does not reach the saved record. |
| PostDetailModal.SaveUnedited | src/components/PostDetailModal.tsx:42-77 | Saving straight after opening gives back the post unchanged. |
| PostDetailModal.SelectDot | src/components/PostDetailModal.tsx:177-184 | A media-carousel dot selects that slide and stops playback. Nothing else changes. |
| PostDetailModal.SelectImageDot | src/components/PostDetailModal.tsx:200-203 | An image-carousel dot selects that image. Nothing else changes. |
| PostDetailModal.CaptionPreview | src/components/PostDetailModal.tsx:236 | The preview is the caption up to its first line break, or all of it when there is none. |
| PostDetailModal.HashtagLine | src/components/PostDetailModal.tsx:239 | Definition of the caption's lines that start with `#`, joined by single spaces. |
| PostDetailModal.HashtagLinesOfCaption | src/components/PostDetailModal.tsx:239 | For every caption, the hashtag line joins lines of the caption. Each starts with `#` and holds no line break. Every caption line starting with `#` is kept as often as it occurs, and no other line is kept. |
| PostDetailModal.HashtagLinesOfThree | src/components/PostDetailModal.tsx:239 | Of a sentence, an empty line and a hashtag line, only the hashtag line starts with `#`. |
| PostDetailModal.SentenceThenHashtags | src/components/PostDetailModal.tsx:236-239 | For a caption made of a sentence, an empty line and a hashtag line, the preview is the sentence and the hashtag line is the hashtags. |
| EditPostModal.SomeNamedExists | src/components/EditPostModal.tsx:38 | `some(pp => pp.name.toLowerCase() === id)` holds exactly when some platform name, lower-cased, is the id. |
| EditPostModal.InitialSelection | src/components/EditPostModal.tsx:37-39 | The list has the ids, names and order of the platform table. Each entry is selected exactly when one of the post's platform names, lower-cased, equals its id. |
| EditPostModal.InstagramAndRedNoteSelection | src/components/EditPostModal.tsx:37-39 | A post going to "Instagram" and "RedNote" starts with exactly `instagram` and `rednote` selected. |
| EditPostModal.Toggle | src/components/EditPostModal.tsx:45-49 | Toggling keeps the length of the list. |
| EditPostModal.ToggleFlips | src/components/EditPostModal.tsx:45-49 | Ids, names and order are kept. The flag of each entry with the toggled id is negated, and every other entry is left as it was. |
| EditPostModal.ToggleTwice | src/components/EditPostModal.tsx:45-49 | Toggling the same id twice gives back the list. |
| EditPostModal.ToggleUnknown | src/components/EditPostModal.tsx:47 | Toggling an id no entry has changes nothing. |
| EditPostModal.InitialIdsDistinct | src/components/EditPostModal.tsx:26-39 | The selection list's ids are distinct. |
| EditPostModal.ToggleFlipsMembership | src/components/EditPostModal.tsx:45-49 | Toggling a listed id flips whether it is among the selected ids, and no other id's. |
| EditPostModal.OrElse | src/components/EditPostModal.tsx:198 | `value \|\| fallback`: a present non-empty value is shown, otherwise the fallback. |
| EditPostModal.ScheduleButtonLabel | src/components/EditPostModal.tsx:198 | Definition of the button text: the date and the time, each replaced by its default when missing or empty. |
| EditPostModal.ScheduledPostLabel | src/components/EditPostModal.tsx:198 | A post with a date and a time shows them on the schedule button. |
| EditPostModal.UnscheduledPostLabel | src/components/EditPostModal.tsx:198 | A post with neither shows "Wed, Jan 7 • 7:15 PM". |
| EditPostModal.InitialTimePicker | src/components/EditPostModal.tsx:223-225 | The selected time starts as the post's time, or "7:15 PM" when it has none, with the list closed. It is the time the schedule button shows. |
| EditPostModal.PickTime | src/components/EditPostModal.tsx:319-325 | Picking an option makes it the selected time and closes the list. |
| EditPostModal.DefaultTimeOffered | src/components/EditPostModal.tsx:227-232 | There are 34 options, and the default time is one of them. |
| PostsContext.InitialState | src/contexts/PostsContext.tsx:28-155 | The provider starts with the twelve sample posts. Their ids are "1" to "12" in order, so no id repeats. |
| PostsContext.IdsAreCounts | src/contexts/PostsContext.tsx:28-155 | The sample post at position i has the id i + 1 written in decimal. |
| PostsContext.CountedIdsDistinct | src/contexts/PostsContext.tsx:28-155 | Posts numbered from 1 in order have distinct ids. |
| PostsContext.AddPost | src/contexts/PostsContext.tsx:167-169 | `addPost` grows the list by one. The new post is first and the previous list follows unchanged. |
| PostsContext.AddAll | src/contexts/PostsContext.tsx:167-169 | Definition of `addPost` applied once per post, in turn. |
| PostsContext.AddAllPrepends | src/contexts/PostsContext.tsx:167-169 | Adding several posts in turn puts them in front, the last one added first. |
| StudioMockup.LoadedAppend | src/pages/StudioMockup.tsx:26-37 | Handling two lots of files one after the other appends what handling them together would. |
| StudioMockup.Loaded | src/pages/StudioMockup.tsx:26-37 | Definition of the images `handleFiles` appends: the truthy load results of the image files, in file order. |
| StudioMockup.OneFileLoaded | src/pages/StudioMockup.tsx:27-33 | A file that is not an image appends nothing. An image file appends its load's result exactly when that result is truthy. |
| StudioMockup.LoadedFromImages | src/pages/StudioMockup.tsx:27-33 | Every image appended is the result of loading an image file from the files handled. |
| StudioMockup.RemoveAt | src/pages/StudioMockup.tsx:49-51 | An index in range removes exactly that image and keeps the others in order. Any other index changes nothing. |
| StudioMockup.UploadArea.constructor | src/pages/StudioMockup.tsx:6-7 | No images and no drag at first. |
| StudioMockup.UploadArea.HasImages | src/pages/StudioMockup.tsx:53 | `hasImages` holds exactly when some image is uploaded. |
| StudioMockup.UploadArea.HandleFiles | src/pages/StudioMockup.tsx:26-37 | The loop appends the truthy load results of the image files, in order, after the images already there. The drag flag is untouched. |
| StudioMockup.UploadArea.DragOver | src/pages/StudioMockup.tsx:10-13 | Sets the drag flag and keeps the images. |
| StudioMockup.UploadArea.DragLeave | src/pages/StudioMockup.tsx:15-17 | Clears the drag flag and keeps the images. |
| StudioMockup.UploadArea.Drop | src/pages/StudioMockup.tsx:19-24 | Clears the drag flag and handles the dropped files. |
| StudioMockup.UploadArea.InputChange | src/pages/StudioMockup.tsx:43-47 | Handles the chosen files when there are any, and otherwise changes nothing. |
| StudioMockup.UploadArea.RemoveImage | src/pages/StudioMockup.tsx:49-51 | Leaves the images `RemoveAt` gives and the drag flag unchanged. |
| Text.TrimSpec | src/pages/AIAgent.tsx:52 | `trim` gives a string without leading or trailing white space. It is empty exactly when the input is all white space. |
| Text.Trim | src/pages/AIAgent.tsx:52 | Definition of `trim`: leading white space is removed, then trailing white space. |
| Text.TrimIgnoresTrailingSpace | src/pages/AIAgent.tsx:52 | A trailing white-space character does not change `trim`. |
| Text.TrimIdempotent | src/components/chat/ChatInput.tsx:16-17 | Trimming twice is trimming once. |
| Text.IndexOf | src/pages/AIAgent.tsx:47 | `indexOf` is -1 exactly when the character is absent. Otherwise it is the position of its first occurrence. |
| Text.Split | src/pages/OutputGallery.tsx:197 | `split` on one character. It always gives at least one piece, and a string without the separator is a single piece. |
| Text.Join | src/components/PostDetailModal.tsx:239 | Definition of `join`: the parts with the separator between neighbours, and the empty string for no parts. |
| Text.JoinSplit | src/components/PostDetailModal.tsx:239 | Joining the pieces of a split with the separator gives the string back. |
| Text.SplitJoin | src/components/PostDetailModal.tsx:239 | Splitting a join of separator-free pieces gives the pieces back. |
| Text.SplitPiecesFree | src/components/PostDetailModal.tsx:239 | No piece of a split holds the separator. |
| Text.SplitFirstPiece | src/components/PostDetailModal.tsx:236 | The first piece of a split is the text before the first separator, or the whole string when there is none. |
| Text.ToLower | src/components/PostDetailModal.tsx:43 | `toLowerCase` keeps the length and lower-cases each ASCII letter. |
| Text.ShowNat | src/pages/OutputGallery.tsx:201 | The decimal text `String(n)` gives. It is non-empty, all digits, and has no leading zero. |
| Text.ParseInt | src/pages/OutputGallery.tsx:198 | Definition of `parseInt` without a radix. Leading white space is skipped and one sign is read. A `0x` prefix selects base 16. The longest run of digits is the value, and `NaN` (no digit) is `None`. |
| Text.ParseShowNat | src/pages/OutputGallery.tsx:198 | `parseInt` reads the decimal text of a natural number back as that number. |
| Text.ShowNatInjective | src/contexts/PostsContext.tsx:28-155 | Distinct numbers have distinct decimal texts. |

## Left out

- Rendering: JSX, styling, icons, layout, scrolling and text-area sizing, and the presentational `ChatMessage`, `AnalyticsDashboard`, `Assets`, `Home`, `Sidebar`, `Index`, `ChatContainer`, `SamplePromptModal` and `Studio` files. They compute nothing the model could state.
- The `optimize-prompt` proxy function: it is HTTP plumbing with environment lookups and a third-party `fetch`.
- `fetch`, the body reader and `TextDecoder`: a response is a status and an optional list of decoded chunks, and a rejected read at the end is a flag.
- `JSON.parse` and the content lookup: an oracle. Content that is present but not a string is not modelled.
- React's batching of state updates: every `setMessages` updater and setter is applied when it is queued, in the order the callbacks run. Interleaved handlers and concurrent `send` calls are not modelled.
- StudioMockup.UploadArea.HandleFiles: the loads are taken to finish in the order of the files. `FileReader` callbacks are asynchronous, and their order is not guaranteed.
- Drag visuals and the hidden file input's `click()`: they only reach the DOM.
- `formatDate`, `toLocaleString`, date-fns `format` and the picker's `Date` parsing: they are locale- and clock-dependent. The card footer keeps the raw date text.
- The date picker of the schedule view, `handlePostNow`, `toggleVideo` and the pause through the video ref: they are side effects on the DOM or the console.
- The `mediaType`, `video` and `carouselImages` fields of the detail modal's post: `handleSave` copies them as it copies every other field.
- Text.ToLower: only ASCII letters are case-mapped. Full Unicode case mapping is out of scope.
- Text.ParseInt: integers are unbounded. Precision loss above 2^53 and fractional or exponent text are not modelled, and the `parseInt` round trip is proved only for naturals.
- `handleKeyDown` on the chat page: it calls `send(input)` exactly as the button does.
- The gallery's `scheduledPosts` sample data: the filter and sort are proved for every list of posts instead.
- EditPostModal.DefaultTimeOffered: it states the default's position among the options. That the 34 options are pairwise distinct is not proved.
- The crash of the carousel view on an empty `carouselItems` list: an out-of-range index is a rendering error, not a state change.
