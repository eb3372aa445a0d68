# Audio cog command gatekeeping, in Dafny

This project models the command side of the voice-audio cog of a chat bot (`cogs/audio.py`):
the per-guild session lists that decide whether `audio` (connect), `audio disconnect`,
`audio file` (play), `audio replay`, `audio record start` and `audio record stop` may run, the
checks every candidate audio file must pass (".mp3"/".wav", at most 25,000,000 bytes), the order
in which play and tag add pick their audio source, the remote-URL pattern and fetch checks, the
named-tag store with its insert-or-update and delete, and the file names derived for stored
tags and re-uploaded files.

Modules, one file each:

- `wrappers.dfy` (`Wrappers`): `Option` and `Result`.
- `lists.dfy` (`Lists`): duplicate-freedom and Python's `list.remove` (first occurrence).
- `validation.dfy` (`Validation`): the size limit, the extension test, the URL pattern
  `^https?://[\w!?/+\-_~=;.,*&@#$%()'\[\]]+$`, the HTTP checks and `split(".")[-1]`.
- `tags.dfy` (`Tags`): the tag store as a map from (guild, name) to the row, and `TagAttachment`.
- `sources.dfy` (`Sources`): source selection for play and for tag add, and tag add as a whole.
- `sessions.dfy` (`Sessions`): class `AudioCog` holding `connectingGuilds` and `recordingGuilds`
  (the source's `connecting_guilds` and `recording_guilds`) and one method per command.

Calls whose result the cog only awaits — joining and leaving a voice channel, building a
playback source, `voice_client.replay()` / `record()`, the HTTP fetch, the upload of a fetched
file — are parameters of the methods and functions that use them (`Effect`, `Capture`,
`HttpResponse`, the upload identifier and URL). Each command returns a typed outcome instead of
sending text, and the commands whose cooldown the source resets also return that decision.

The cog itself holds no frame ring buffer, no recorder state and no per-guild session object:
it keeps two lists of guild ids and delegates capture to a voice client that is not part of this
model. Connect has no intermediate "connecting" state; a guild is listed only once the join has
returned. Disconnect does not touch the capture list, so a capture running at disconnect stays
listed until it returns. The model has no notion of an empty capture:
whatever `replay()`/`record()` returns is passed through as `Captured` (possibly an empty clip)
or `NoClip`.

## Model

| member | source | states |
|---|---|---|
| Lists.RemoveFirst | cogs/audio.py:85 | `list.remove`: one element fewer, the multiset minus one occurrence of the value |
| Lists.IndexOf | cogs/audio.py:85 | the position of the first occurrence: the value sits there and nowhere before it |
| Lists.RemoveFirstCutsFirst | cogs/audio.py:85 | `list.remove` is exactly the list with its first occurrence of the value cut out, the rest in order |
| Lists.RemoveFirstOfAppended | cogs/audio.py:277-291 | removing a value just appended to a list that lacked it gives back the original list |
| Lists.RemoveFirstNoDuplicates | cogs/audio.py:85 | on a duplicate-free list, removal takes the value out entirely, keeps every other element and keeps the list duplicate-free |
| Lists.AppendFreshNoDuplicates | cogs/audio.py:70 | appending a guild that is not listed keeps the list duplicate-free |
| Validation.CheckAttachment | cogs/audio.py:104-113 | an attachment is accepted iff its name ends in ".mp3" or ".wav" and its size is at most 25,000,000; a bad extension (`HasAudioExtension`, a case-sensitive `endswith`) wins over an oversize file; an accepted attachment is passed on unchanged |
| Validation.UpperCaseExtensionRefused | cogs/audio.py:105 | the extension test is case-sensitive: "clip.MP3" is refused as unsupported whatever its size |
| Validation.SchemeLength | cogs/audio.py:31 | the pattern's `^https?://` consumes 8 characters for "https://", 7 for "http://", and fails on anything else |
| Validation.UrlMatchesIff | cogs/audio.py:31 | a URL matches (`UrlMatches`, `url_compiled.match`) iff it is "http://" or "https://" followed by one or more allowed characters (optionally then a single final newline, which Python's `$` accepts) |
| Validation.UrlWithPortRefused | cogs/audio.py:31 | ':' is outside the allowed characters, so any http or https URL with a ':' after its scheme (a port after the host, whatever the port) never matches |
| Validation.HttpUrlWithPortRefused | cogs/audio.py:31 | the concrete URL "http://example.com:8080/a.mp3" does not match |
| Validation.CheckResponse | cogs/audio.py:215-221 | a fetch passes iff the status is in 200..299 (`StatusIsSuccess`) and the body is at most 25,000,000 bytes; a bad status is a failed fetch, reported before the size |
| Validation.LastDotSegment | cogs/audio.py:38 | `split(".")[-1]`: a dot-free suffix of the text that is either the whole text or preceded by '.' |
| Validation.LastDotSegmentUnique | cogs/audio.py:38 | those three properties determine the segment: any such suffix equals it |
| Validation.LastDotSegmentFollowsDot | cogs/audio.py:38 | the text ends with "." and the segment, or has no '.' at all |
| Validation.AudioExtensionSegment | cogs/audio.py:38 | a text ending in ".mp3" / ".wav" has "mp3" / "wav" as its last dot segment |
| Validation.DotJoin | cogs/audio.py:39 | stem + "." + dot-free type starts with the stem and a dot, ends with the dot and the type, and has the type as last dot segment |
| Validation.ReuploadFilename | cogs/audio.py:224 | the re-upload name is exactly the identifier, '.', and the URL's last dot segment (prefix, suffix and length pinned), so it keeps the URL's file type |
| Tags.Lookup | cogs/audio.py:133-134 | the tag of (guild, name) if the store has one, else none; on a well-keyed store it carries that guild and name |
| Tags.AddTag | cogs/audio.py:232-248 | a new (guild, name) gets a fresh row owned by the caller ("added"); an existing one keeps its row and owner and only its audio URL changes ("updated"); no other key changes |
| Tags.AddTagWellKeyed | cogs/audio.py:235-247 | adding keeps every row filed under its own guild and name |
| Tags.AddThenLookup | cogs/audio.py:232-248 | after an add, the lookup finds the new URL, with the caller as owner for a new tag and the original owner for an updated one |
| Tags.AddTagTwice | cogs/audio.py:243-248 | repeating the same add leaves the store as it was and reports an update |
| Tags.DeleteTag | cogs/audio.py:252-260 | deleting an absent (guild, name) is an error and changes nothing; otherwise exactly that key goes |
| Tags.DeleteTagWellKeyed | cogs/audio.py:259 | deleting keeps every row filed under its own guild and name |
| Tags.DeleteUndoesAdd | cogs/audio.py:232-260 | deleting a tag just added as new restores the earlier store |
| Tags.DeleteTwice | cogs/audio.py:254-258 | a second delete of the same name finds nothing |
| Tags.ListTags | cogs/audio.py:167-175 | listing fails iff the guild has no tags; otherwise it gives exactly the names stored for that guild |
| Tags.MakeTagAttachment | cogs/audio.py:36-40 | file type = text after the last '.' of the audio URL; file name = tag name + "." + file type; URL = the stored audio URL; the file name keeps the URL's last dot segment |
| Tags.TagFileKeepsAudioExtension | cogs/audio.py:38-39 | a tag whose URL ends in ".mp3" or ".wav" is played under a file name with the same ending |
| Sources.MessageFile | cogs/audio.py:116-130 | a referenced message without attachments is an error; otherwise its first attachment is checked |
| Sources.SelectPlaySource | cogs/audio.py:103-143 | play takes the command's first attachment, else the referenced message's first attachment, else the guild's named tag, played iff it is stored under (guild, name) and then as that row's attachment; a chosen attachment is played iff it passes the attachment check and otherwise gives that check's error; each other error (no file on the message, unknown tag, nothing given) arises exactly in its case |
| Sources.PlayOwnAttachmentFirst | cogs/audio.py:103-113 | with an attachment on the command, the referenced message, the tag name and the store do not matter |
| Sources.PlayMessageBeforeTag | cogs/audio.py:114-130 | without one, a referenced message decides and the tag is not looked up |
| Sources.SelectTagSource | cogs/audio.py:183-229 | tag add takes the referenced message, else the command's first attachment, else a URL matching the pattern; a chosen attachment's URL is taken iff it passes the attachment check and otherwise gives that check's error; a non-matching URL counts as no source |
| Sources.TagAddMessageFirst | cogs/audio.py:183-198 | with a referenced message, tag add ignores its own attachments and the URL |
| Sources.PriorityDiffers | cogs/audio.py:183-206 | given both an accepted own attachment and an accepted referenced one, play takes its own and tag add takes the referenced one |
| Sources.ResolveTagAudio | cogs/audio.py:212-226 | an attachment source stores the attachment URL; a remote URL fails as a failed fetch iff the status is outside 200..299, as oversize iff a 2xx body exceeds the limit, and is otherwise stored as its re-upload URL, re-uploaded under identifier + "." + the URL's last dot segment |
| Sources.VoiceTagAdd | cogs/audio.py:179-249 | a refusal reports the resolution's own error, leaves the store unchanged and resets the cooldown only for a bad extension (`TagAddResetsCooldown`); otherwise the result is the insert-or-update of the resolved URL |
| Sources.PlayAttachmentCooldown | cogs/audio.py:103-126 | for every play request whose chosen file is an attachment, a bad extension is refused as such and resets the cooldown, and an oversize file is refused as such and does not |
| Sources.TagAddAttachmentCooldown | cogs/audio.py:183-210 | for every tag-add request whose chosen file is an attachment, a bad extension is refused with a cooldown reset and an oversize file without one, the store unchanged in both cases |
| Sources.TagAddRemoteOversize | cogs/audio.py:212-221 | a matching URL whose 2xx body exceeds the limit is refused as oversize, without a cooldown reset and with the store unchanged |
| Sources.VoiceTagAddWellKeyed | cogs/audio.py:232-248 | tag add keeps every row filed under its own guild and name |
| Sessions.CaptureEnd | cogs/audio.py:280-289 | a capture that got past the guard delivers a clip iff the voice client gave one back, fails quietly iff it gave back nothing, and ends in the re-raised error iff it raised |
| Sessions.AudioCog.constructor | cogs/audio.py:49-54 | both guild lists start empty |
| Sessions.AudioCog.Connect | cogs/audio.py:61-71 | refused with no change if the text-to-speech cog holds the guild or it is already listed; a raising join adds nothing; otherwise the guild is appended; the capture list is untouched; lists stay duplicate-free |
| Sessions.AudioCog.Disconnect | cogs/audio.py:78-86 | refused with no change when the guild is not listed; a raising teardown changes nothing; otherwise the guild is removed and no longer listed, the other guilds stay; the capture list is untouched |
| Sessions.AudioCog.PlayAudioFile | cogs/audio.py:94-163 | not-connected, source refusal (with the selection's error), build failure, vanished voice client and playback are each stated as an iff; playback plays exactly the selected source; the cooldown is reset when not connected, on every source refusal except an oversize file (`PlayResetsCooldown`), and after playback, never after a build failure or a vanished voice client |
| Sessions.AudioCog.EnterCapture | cogs/audio.py:270-277 | refused when the guild is not connected or already capturing; otherwise the guild is appended to the capture list; the connection list is untouched |
| Sessions.AudioCog.LeaveCapture | cogs/audio.py:290-291 | the guild is removed from the capture list and no other guild is affected |
| Sessions.AudioCog.AwaitCapture | cogs/audio.py:280 | the voice client is awaited only in a state where the capture list is a given earlier list with the guild appended (its precondition, checked at every call); what it returns is the capture passed in |
| Sessions.AudioCog.CaptureBracket | cogs/audio.py:277-291 | the voice client is awaited (`AwaitCapture`) only while the capture list is the old one plus the guild; the outcome is `CaptureEnd` of what it returns; on every exit (clip, none, exception) both lists are back to their prior contents |
| Sessions.AudioCog.Replay | cogs/audio.py:269-291 | refused when not connected (cooldown reset) or already capturing (no reset); otherwise the bracketed capture, with both lists restored |
| Sessions.AudioCog.RecordStart | cogs/audio.py:319-344 | refused when not connected or already capturing, resetting the cooldown in both cases; otherwise the bracketed capture, with both lists restored |
| Sessions.AudioCog.RecordStop | cogs/audio.py:350-354 | signals the stop iff the guild is connected; neither list changes |
| Sessions.OverlappingCaptures | cogs/audio.py:274-276 | while a capture runs, a second connect, a replay and a record start on that guild are all refused; after it ends a replay delivers |
| Sessions.DisconnectDuringCapture | cogs/audio.py:78-86 | a disconnect during a capture succeeds, a reconnect succeeds, and replay is still refused because the capture stays listed |

## Left out

- The continuous-capture ring buffer, `voice_client.replay()` / `record()` and the WAV encoding
  live in `lib/discord/voice_client.py`, and playback-source building in `lib/audio.py`; neither
  is part of this model. Their results are parameters (`Capture`, `Effect`).
- What the voice client does with the `record_stop` event is not part of this model; `RecordStop`
  only says when the event is dispatched.
- The per-guild `asyncio.Lock` around playback, the race between natural completion and a skip
  request, and the five-second wait: the model ends play when playback would start, and every
  ending of playback resets the cooldown alike.
- Interleaving: each method runs to completion. In the source an `await` separates connect's
  membership test from its append, so two concurrent connects could list a guild twice; the
  model does not capture that. The capture bracket is split into `EnterCapture`, `AwaitCapture`
  (the awaited `replay()`, or `record()` at cogs/audio.py:332) and `LeaveCapture` so that overlap
  between a running capture and later commands can be stated.
- Network and database I/O: the HTTP fetch, its time-outs and transport exceptions, and the
  SQL session are not modelled; the store is a map, and the uniqueness constraint behind the
  `IntegrityError` is taken to be the (guild, name) pair.
- The user-facing texts, embeds, command decorators and permission checks, cooldown timers
  (only whether a cooldown is reset), `uuid4()` (a parameter) and `datetime.utcnow()`.
- The order of `voice_tag`'s listing: `ListTags` returns a set of names.
- `IsWordChar`: Python's `\w` on text also matches non-ASCII letters and digits; the model accepts
  only ASCII letters, digits and '_', so `UrlMatchesIff` speaks of that narrower class.
- `alembic/versions/3647384eb0d6_add_limit_column.py` (a schema migration) and `lib/fake.py`
  (test doubles) hold no logic of the cog.
