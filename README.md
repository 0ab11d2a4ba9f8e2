# A verified model of a Discord voice-and-chat bot

The bot joins voice channels, cuts what each speaker says into segments,
recognises speech, listens for a wake word and spoken commands (mute,
kick, timeout, change voice, leave) and answers through text-to-speech
and an AI chat provider. Next to the voice pipeline it has text commands
grouped in cogs: access control (`auth`), moderation (`admin`), a paged
help menu, pranks (`troll`), games (`fun`), text utilities and two
front-ends to an LLM agent. A legacy single-file entrypoint (`app.py`)
carries an older copy of the voice loop and of several commands.

This project models that core in Dafny, one module per source file:

| module | models |
|---|---|
| `VoiceSink` | `voice/sink.py`: the per-speaker audio buffers, readiness, the RMS gate |
| `VoiceHandler` | `voice/handler.py`: wake word, spoken-command parsing and execution, join/leave/rejoin state |
| `VoiceCog` | `cogs/voice_cog.py`: the voice text commands and the enforcement pass |
| `TtsService`, `SpeechService`, `AiService` | `services/tts_service.py`, `services/speech_service.py`, `services/ai_service.py` |
| `AuthJson`, `AuthData`, `AuthMigrate`, `AuthSetupVerify`, `AuthBackup`, `AuthBlacklistPicker`, `AuthCog` | `cogs/auth_cog.py`: payload normalisers, the permission check, legacy migration, the verify-setup parser, backups, the blacklist picker, the stateful cog and its save queue |
| `App`, `Morse` | `app.py`: the legacy entrypoint's voice loop, gates and commands; the Morse table it shares with the utility cog |
| `UtilityCog`, `AdminCog`, `HelpCog`, `TrollCog`, `FunCog`, `LlmAgentCog`, `AgentCog` | the cogs of the same names |
| `Paging`, `Chunking` | paging shared by the two paged menus; reply splitting shared by the two agent cogs |
| `Bot` | `bot.py`: log auto-delete settings, `on_message`, `on_command_error` |
| `Wrappers`, `Text` | `Option`, `Min`/`Max`, and the parts of Python's `str` the bot uses |

Discord, the network, audio devices, clocks and random numbers are not
modelled: their results (a provider's reply, whether a move succeeded, a
random draw, the current time in integer milliseconds) are parameters.

## Model

| member | source | states |
|---|---|---|
| VoiceSink.Admission | voice/sink.py:55-71 | a frame passes exactly when listening is on, owner-only mode admits only the owner, a non-empty allow-list admits only its users, and the speaker is not blocked |
| VoiceSink.AdmissionAsWritten | voice/sink.py:64-66 | the handler as constructed has no `allowed_users`, so the allow-list test raises exactly when listening is on and owner-only is off |
| VoiceSink.DefaultHandlerRaisesOnEveryFrame | voice/sink.py:64-66 | with the handler's default settings every frame raises as written, while the corrected filter lets it through |
| VoiceSink.OwnerOnlyAdmitsOnlyOwner | voice/sink.py:59-62 | in owner-only mode an unblocked speaker's frame passes iff the speaker is the owner |
| VoiceSink.ReadyList | voice/sink.py:110-143 | at most one segment per visited speaker |
| VoiceSink.ReadyListIff | voice/sink.py:120-141 | a segment is handed out iff its speaker is visited, not processing, has more than 48000 bytes and more than a second of silence, and the segment is that speaker's whole buffer |
| VoiceSink.Uids | voice/sink.py:110-143 | the speakers of the handed-out segments, in order |
| VoiceSink.ReadyListDistinct | voice/sink.py:120-141 | one call never hands out the same speaker twice |
| VoiceSink.VisitStep | voice/sink.py:120-141 | one loop step empties and claims the visited speaker exactly when it is ready, and touches no other speaker |
| VoiceSink.VisitedAll | voice/sink.py:120-141 | visiting every speaker gives the whole call's buffers and processing set |
| VoiceSink.NoByteLoss | voice/sink.py:134-139 | a speaker's bytes before the call are the handed-out segment followed by what stays buffered |
| VoiceSink.NotReadyAgainUntilFinished | voice/sink.py:123-138 | until `finish_processing`, no later call hands out a speaker already handed out |
| VoiceSink.PrefixStep | voice/sink.py:120-141 | the next speaker of a distinct visiting order has not been visited yet |
| VoiceSink.CollectStep | voice/sink.py:120-141 | the readiness test of one step and its effect on buffers, processing set and output |
| VoiceSink.CollectReady | voice/sink.py:110-143 | the loop returns the ready segments and the drained buffers and claimed set of the specification |
| VoiceSink.DrainKeepsInvariant | voice/sink.py:110-143 | a call keeps the sink's invariant (speaker list enumerates the buffers, processing speakers are buffered) |
| VoiceSink.Sink.constructor | voice/sink.py:23-41 | empty buffers, timestamps and processing set |
| VoiceSink.Sink.Write | voice/sink.py:47-101 | a dropped or empty frame changes nothing; an admitted one creates the speaker's buffer, and either forces processing (buffer over the cap) or appends the PCM and stamps the time |
| VoiceSink.Sink.Cleanup | voice/sink.py:103-108 | everything is forgotten |
| VoiceSink.Sink.GetReadySegments | voice/sink.py:110-143 | returns `ReadyList` over the speakers in insertion order and drains and claims exactly those speakers |
| VoiceSink.Sink.FinishProcessing | voice/sink.py:145-147 | releases only that speaker's mark |
| VoiceSink.Sample | voice/sink.py:166 | a little-endian signed 16-bit sample, range and two's-complement bytes |
| VoiceSink.SampleCount | voice/sink.py:160 | `len(audio_data) // 2`: the number of whole 16-bit samples, a trailing odd byte left over |
| VoiceSink.SumSquaresZeroIffSilent | voice/sink.py:166-168 | the sum of squared samples is zero exactly when every whole sample is zero, so any sound gives a positive RMS |
| VoiceSink.IsLoudEnough | voice/sink.py:174-189 | a threshold of zero or less admits everything; with a positive threshold (`MIN_RMS` when none is given), audio without a whole sample is too quiet and loud audio is never silent |
| VoiceSink.SumSquaresIgnoresOddByte | voice/sink.py:161-166 | a trailing odd byte does not count |
| VoiceSink.LoudEnoughIffRms | voice/sink.py:150-189 | the integer comparison of the sum of squares agrees with `sqrt(sum/count) >= threshold` |
| VoiceSink.SquaredCompare | voice/sink.py:167-189 | for a positive threshold, comparing the root is comparing the squares |
| VoiceSink.ShortAudioIsQuiet | voice/sink.py:161-163 | audio of fewer than two bytes never passes a positive threshold |
| VoiceHandler.HasTrigger | voice/handler.py:300-311 | true exactly when the text holds the wake word as a whole word or starts with the Arabic wake word, with `\b` taken between a word character and a non-word one (the non-ASCII characters the model classes are listed under "Left out") |
| VoiceHandler.WakeWordAnywhere | voice/handler.py:304-305 | the wake word between non-word characters triggers |
| VoiceHandler.WakeWordBeforeSymbol | voice/handler.py:305 | the wake word followed by a non-ASCII punctuation mark or space (`manga’s`, `manga` and a no-break space) triggers |
| VoiceHandler.ArabicWakeWordBeforeSymbol | voice/handler.py:306 | the Arabic wake word followed by a punctuation mark such as the Arabic comma triggers |
| VoiceHandler.ManagaDoesNotTrigger | voice/handler.py:304-305 | a word merely containing the wake word's letters does not trigger |
| VoiceHandler.SkipSeparators | voice/handler.py:317-318 | `[,\s]*` at the start: the longest run of commas and blanks is removed |
| VoiceHandler.DropLeading | voice/handler.py:320-322 | a case-insensitive leading word and its separators are removed; other text is kept |
| VoiceHandler.RemoveTrigger | voice/handler.py:313-323 | never longer than its input |
| VoiceHandler.RemoveTriggerKeepsUnprefixed | voice/handler.py:313-323 | text not starting with a wake word is only stripped |
| VoiceHandler.RemoveTriggerDropsLeading | voice/handler.py:313-323 | a leading wake word and its separators are dropped, the rest stripped |
| VoiceHandler.RemoveTriggerComma | voice/handler.py:313-323 | `manga, x` leaves `x` |
| VoiceHandler.MidSentenceWakes | voice/handler.py:304-305 | a wake word in mid-sentence triggers |
| VoiceHandler.MidSentenceWakeWordStays | voice/handler.py:313-323 | a wake word in mid-sentence is not removed, so the command text keeps it |
| VoiceHandler.LineOf | voice/handler.py:347-349 | `.+` stops at the first newline |
| VoiceHandler.NonSpaceRun | voice/handler.py:350 | `\S+`: the longest run of non-blanks |
| VoiceHandler.ArgumentAfter | voice/handler.py:347-386 | an argument exists exactly when the keyword is followed by a blank and more text |
| VoiceHandler.MinutesAfter | voice/handler.py:350-391 | without a number after the name the timeout is 5 minutes |
| VoiceHandler.TimeoutArguments | voice/handler.py:350-392 | `timeout` matches exactly when followed by a blank and more text |
| VoiceHandler.ArgumentOfPhrase | voice/handler.py:347-349 | the argument of `kw name` is `name` |
| VoiceHandler.NotLeaveNorVoice | voice/handler.py:351-365 | a command starting with t, m, u or k is neither leave nor change-voice |
| VoiceHandler.KeywordPhraseNotLeave | voice/handler.py:351-365 | mute/unmute/kick/timeout phrases are not caught by the earlier leave and voice tests |
| VoiceHandler.KeywordPhraseNotEarlier | voice/handler.py:367-386 | no keyword phrase is caught by a keyword tested before it |
| VoiceHandler.ParseSpokenMute | voice/handler.py:367-371 | `mute name` parses as Mute(name) |
| VoiceHandler.ParseSpokenUnmute | voice/handler.py:373-377 | `unmute name` parses as Unmute(name) |
| VoiceHandler.ParseSpokenKick | voice/handler.py:379-383 | `kick name` parses as Kick(name) |
| VoiceHandler.MinutesOfNumber | voice/handler.py:391 | a written number is read back as itself |
| VoiceHandler.TimeoutArgumentsOfBody | voice/handler.py:388-392 | the timeout's name is the first non-blank run and its minutes come from the rest |
| VoiceHandler.TimeoutArgumentsOfPhrase | voice/handler.py:388-392 | `timeout name rest` gives the name and the minutes read from the rest |
| VoiceHandler.TimeoutArgumentsOfNumber | voice/handler.py:388-392 | `timeout name m` gives (name, m) |
| VoiceHandler.ParseSpokenTimeout | voice/handler.py:388-393 | `timeout name m` parses as Timeout(name, m) |
| VoiceHandler.TimeoutArgumentsOfName | voice/handler.py:388-392 | `timeout name` gives (name, 5) |
| VoiceHandler.ParseTimeoutDefault | voice/handler.py:388-393 | `timeout name` parses as a 5-minute timeout |
| VoiceHandler.ChangeVoiceRecognised | voice/handler.py:350-365 | `change voice` is the change-voice command and not leave |
| VoiceHandler.ParseSpokenChangeVoice | voice/handler.py:364-365 | `change voice` parses as ChangeVoice |
| VoiceHandler.ParseSpokenLeave | voice/handler.py:359-361 | `leave` parses as Leave |
| VoiceHandler.ParseSpoken | voice/handler.py:339-398 | every speakable command, spoken, parses back as itself |
| VoiceHandler.LeaveWordsArePrefixes | voice/handler.py:352-361 | any text starting with leave, disconnect, dc, exit or bye is Leave (so `dcx` leaves too) |
| VoiceHandler.BareMuteIsChat | voice/handler.py:347-398 | `mute` alone is no command and goes to chat |
| VoiceHandler.FillerAt | voice/handler.py:411 | a filler word (the, user, member) at a word boundary has its own length |
| VoiceHandler.RemoveFillersFrom | voice/handler.py:411 | removing filler words never lengthens the text |
| VoiceHandler.NoFillersKept | voice/handler.py:411 | text without filler words is kept whole |
| VoiceHandler.FillerAloneIsEmptyQuery | voice/handler.py:408-411 | the name `user` leaves an empty query |
| VoiceHandler.FirstMatchFrom | voice/handler.py:413-419 | the first member whose display name or user name contains the query, or none |
| VoiceHandler.LookupMember | voice/handler.py:406-421 | the member found matches the cleaned query; none is found only when no member matches |
| VoiceHandler.FindMember | voice/handler.py:406-421 | cleaning the name and scanning gives `LookupMember` |
| VoiceHandler.ScanMembers | voice/handler.py:413-421 | the loop stops at the first matching member, `FirstMatchFrom` |
| VoiceHandler.FillerOnlyNameMatchesFirstMember | voice/handler.py:408-419 | a name made only of filler words matches the first member of the guild |
| VoiceHandler.EmptyQueryMatchesFirst | voice/handler.py:413-417 | the empty query is contained in every name |
| VoiceHandler.AppliedMinutes | voice/handler.py:492 | a timeout is capped at 60 minutes |
| VoiceHandler.Execute | voice/handler.py:423-502 | the refusals in source order (no invoker, no permission, no target, target not in voice for mute and kick) and the call only when all pass |
| VoiceHandler.RefusalMakesNoCall | voice/handler.py:423-502 | a refused command does not depend on the API's outcome |
| VoiceHandler.Message | voice/handler.py:423-502 | every outcome has a reply text |
| VoiceHandler.ActionOf | voice/handler.py:367-393 | a timeout command keeps its minutes |
| VoiceHandler.SpokenTimeoutIsCapped | voice/handler.py:388-393 | a spoken timeout of m minutes applies min(m, 60) (the cap is applied at voice/handler.py line 492) |
| VoiceHandler.SegmentGate | voice/handler.py:237-286 | too quiet, no speech, no wake word, greeting, or the parsed command text, in source order |
| VoiceHandler.WakeWordLeads | voice/handler.py:304 | a text led by the wake word triggers |
| VoiceHandler.WakeWordRemoved | voice/handler.py:313-323 | the wake word and its blank are removed from `manga x` |
| VoiceHandler.WakeWordThenPhrase | voice/handler.py:237-286 | a loud segment saying `manga x` runs the command parsed from `x` |
| VoiceHandler.SpokenCommandRuns | voice/handler.py:237-286 | a loud segment saying `manga` and a speakable command runs that command |
| VoiceHandler.VoiceStateReaction | voice/handler.py:551-581 | the bot leaving rejoins unless left on purpose; a listed member joining a channel is kicked; the auto-join user joining is played to |
| VoiceHandler.Spaced | voice/handler.py:404 | underscores replaced by blanks |
| VoiceHandler.Handler.constructor | voice/handler.py:45-83 | listening on, owner-only off, empty sets, first voice |
| VoiceHandler.Handler.SinkPolicy | voice/sink.py:55-71 | the settings the sink reads are the handler's fields |
| VoiceHandler.Handler.SetListening | voice/handler.py:504-506 | sets the flag |
| VoiceHandler.Handler.SetOwnerOnly | voice/handler.py:508-515 | a non-zero id turns owner-only on with that owner, anything else turns it off |
| VoiceHandler.Handler.BlockUser | voice/handler.py:517-519 | adds the user |
| VoiceHandler.Handler.UnblockUser | voice/handler.py:521-523 | removes the user |
| VoiceHandler.Handler.NextVoice | voice/handler.py:400-404 | the voice index advances cyclically and the reply names the new voice |
| VoiceHandler.Handler.SetVoice | voice/handler.py:525-533 | succeeds exactly for a known voice, else changes nothing |
| VoiceHandler.Handler.AddAutoKick | voice/handler.py:535-537 | adds the user |
| VoiceHandler.Handler.RemoveAutoKick | voice/handler.py:539-541 | removes the user |
| VoiceHandler.Handler.JoinChannel | voice/handler.py:85-143 | succeeds only when the author is in voice and every step completes; a sink exists once connected; tasks and keep-alive only once listening started |
| VoiceHandler.Handler.LeaveChannel | voice/handler.py:145-186 | with a voice client, drops the guild's sink, task and keep-alive and marks the leave as manual; otherwise changes nothing |
| VoiceHandler.Handler.AttemptRejoin | voice/handler.py:625-666 | reconnects only when the channel is found and the connection succeeds; restarts listening only with a text channel |
| VoiceHandler.Handler.AutoJoinAndPlay | voice/handler.py:583-623 | connects and starts keep-alive unless already there or the connection fails |
| VoiceHandler.Handler.Reaction | voice/handler.py:551-581 | the handler's reaction is `VoiceStateReaction` of its own fields |
| VoiceHandler.Handler.ProcessSegment | voice/handler.py:224-298 | the reply is that of the segment's gate; only a spoken leave with a voice client changes the connection state; only a spoken voice change changes the voice |
| VoiceHandler.Handler.HandleGate | voice/handler.py:259-292 | the same, given the gate |
| VoiceHandler.CommandRepliesAreNonEmpty | voice/handler.py:423-502 | a command reply is never empty, so it is never mistaken for "not a command" |
| VoiceHandler.ManualLeaveStopsRejoin | voice/handler.py:557-566 | after a manual leave the bot does not rejoin; otherwise it does |
| VoiceCog.ListenExplicitState | cogs/voice_cog.py:126-128 | with a word given, the new state does not depend on the old one and is on exactly for on, yes, true, 1 or enable in any case |
| VoiceCog.ListenIgnoresCase | cogs/voice_cog.py:127 | an upper-cased on-word still turns listening on |
| VoiceCog.ListenToggleTwice | cogs/voice_cog.py:126-130 | no word (or an empty one) toggles, so two toggles restore the state |
| VoiceCog.ListenOff | cogs/voice_cog.py:127-128 | `off` turns listening off |
| VoiceCog.VoiceArgument | cogs/voice_cog.py:168 | the name lower-cased with blanks turned into underscores |
| VoiceCog.Underscored | cogs/voice_cog.py:168 | blanks turned into underscores, nothing else changed |
| VoiceCog.VoiceArgumentOfSpaced | cogs/voice_cog.py:168 | the normalisation maps the spaced name the bot announces back to the voice key, when that name reaches the command whole: quoted, or written with underscores, since `voice_name: str` takes only one word otherwise (the announcement is voice/handler.py line 404) |
| VoiceCog.EveryVoiceCanBeChosen | cogs/voice_cog.py:159-177 | every voice of the list is chosen by its announced name given as one argument (quoted or underscored; an unquoted `english female` arrives as `english`) |
| VoiceCog.EnforcePass | cogs/voice_cog.py:359-399 | one action per guild: skip on a manual disconnect, stay in `Manga_bot`, move there when it exists, else ensure the channel |
| VoiceCog.ManualDisconnectSkipsEveryGuild | cogs/voice_cog.py:366-369 | after a manual leave every guild is skipped; otherwise none is, and every disconnected guild is re-joined |
| VoiceCog.Cog.constructor | cogs/voice_cog.py:17-21 | keyword `manga`, not required |
| VoiceCog.Cog.Listen | cogs/voice_cog.py:123-133 | listening becomes `ListeningAfter` of the old state and the word |
| VoiceCog.Cog.Stop | cogs/voice_cog.py:33-40 | listening stops only when the bot is in voice |
| VoiceCog.Cog.VoiceOpen | cogs/voice_cog.py:52-67 | owner-only for the scopes me, onlyme and owner (any case) with the author as owner; listening on; joins only when the author is in voice and the bot is not |
| VoiceCog.Cog.Claim | cogs/voice_cog.py:135-139 | owner-only with the author as owner |
| VoiceCog.Cog.Reset | cogs/voice_cog.py:141-145 | owner-only off |
| VoiceCog.Cog.VoiceKeyword | cogs/voice_cog.py:75-94 | show, on, off or set (with a word), each changing only its own field |
| VoiceCog.Cog.ChooseVoice | cogs/voice_cog.py:159-177 | changes the voice exactly when a name is given and its underscored lower-case form is a known voice |
| VoiceCog.Cog.VcKick | cogs/voice_cog.py:224-252 | adds the member to the auto-kick set; without a member only lists it |
| VoiceCog.Cog.StopVcKick | cogs/voice_cog.py:254-263 | removes the member and says whether it was listed |
| VoiceCog.Cog.Ignore | cogs/voice_cog.py:147-151 | blocks the member |
| VoiceCog.Cog.Unignore | cogs/voice_cog.py:153-157 | unblocks the member |
| TtsService.NonAsciiCount | services/tts_service.py:28 | counts at most every character |
| TtsService.DetectLanguage | services/tts_service.py:26-29 | arabic exactly when more than 30% of the characters are non-ASCII (compared on integers), else english |
| TtsService.DetectLanguageBounds | services/tts_service.py:26-29 | empty and all-ASCII texts are english; a non-empty all-non-ASCII text is arabic |
| TtsService.NoNonAscii | services/tts_service.py:28 | an all-ASCII text counts zero |
| TtsService.AllNonAscii | services/tts_service.py:28 | an all-non-ASCII text counts every character |
| TtsService.SelectVoice | services/tts_service.py:57-61 | a known voice name picks its voice, anything else the voice of the detected language; the result is always one of the four voices |
| TtsService.SpeakNotConnected | services/tts_service.py:44-46 | without a connected client nothing is synthesised or played and the call fails |
| TtsService.SpeakSucceedsOnlyOnCleanPlayback | services/tts_service.py:44-116 | success exactly when connected and playback finished without error; then the right voice was synthesised, the file removed, and a running playback stopped first |
| TtsService.SpeakStopsBeforePlaying | services/tts_service.py:52-61 | a running playback is stopped before playing, and synthesis uses `SelectVoice` |
| TtsService.SpeakLeavesOnlyEmptyFile | services/tts_service.py:72-116 | the temp file is left behind exactly when it came out empty |
| SpeechService.Service.constructor | services/speech_service.py:23-30 | default language en-US |
| SpeechService.Service.SetLanguage | services/speech_service.py:113-126 | a supported code sets its language and answers true; any other changes nothing |
| SpeechService.RecognitionLanguage | services/speech_service.py:49-51 | the given language, or the default when none (or an empty one) is given |
| SpeechService.ShortAudioIsNeverSent | services/speech_service.py:46-47 | fewer than 1000 bytes give the empty transcript without asking the recogniser |
| SpeechService.RecognizerLanguage | services/speech_service.py:49-81 | the recogniser is asked in the given language, else the default |
| SpeechService.TranscriptIsRecognizedText | services/speech_service.py:46-91 | a non-empty transcript comes only from recognised long-enough audio and is that text stripped |
| SpeechService.WavRemovedOnlyOnSuccess | services/speech_service.py:59-91 | the temp WAV is left behind exactly when recording, recognition or the request failed |
| AiService.StartsWithAnyAt | services/ai_service.py:188 | a text starting with any one prefix of the tuple starts with the tuple |
| AiService.StartsWithPrefixIsError | services/ai_service.py:173-188 | a stripped text that begins with one of the error prefixes is an error response |
| AiService.BarePrefixIsError | services/ai_service.py:173-188 | each error prefix on its own is an error response |
| AiService.FixedMessagesAreErrors | services/ai_service.py:173-188 | the "not initialised" and "timed out" messages are classified as errors (the classifier is at lines 279-280 of the same file) |
| AiService.PlainAnswerIsNotError | services/ai_service.py:173-188 | a non-blank answer without an error prefix is not an error; a missing or blank text is |
| AiService.InitOrder | services/ai_service.py:70-78 | the provider order for every preference is non-empty and names real providers |
| AiService.FirstAvailable | services/ai_service.py:110-131 | the first provider of an order whose credentials are present; none exactly when none is available |
| AiService.FirstAvailableOfThree | services/ai_service.py:110-116 | for three providers, tries them left to right |
| AiService.FirstAvailableOfTwo | services/ai_service.py:123-126 | for two providers, tries them left to right |
| AiService.SelectionEnablesNamedProvider | services/ai_service.py:36-131 | the service is enabled exactly when it names a provider, exactly when some provider of its order is available, and then that provider is available |
| AiService.GeminiFirstThenGroq | services/ai_service.py:110-116 | in the Gemini order, Gemini wins when its client exists, then Groq, then OpenRouter |
| AiService.OpenRouterPreferred | services/ai_service.py:72-126 | preferring OpenRouter never selects Gemini; OpenRouter when keyed, else Groq if available |
| AiService.GeminiSetupHasNoGroqClient | services/ai_service.py:98-116 | a Gemini setup never created the Groq client |
| AiService.Service.constructor | services/ai_service.py:36-78 | the state after construction is `Selection` of the environment |
| AiService.Service.InitGemini | services/ai_service.py:80-87 | succeeds exactly with a Gemini key and client, then enables Gemini; otherwise nothing changes |
| AiService.Service.InitOpenRouter | services/ai_service.py:89-96 | succeeds exactly with an OpenRouter key, then enables OpenRouter; otherwise nothing changes |
| AiService.Service.InitGroq | services/ai_service.py:98-108 | succeeds exactly with a Groq key and library, then enables Groq with its client; otherwise nothing changes |
| AiService.Service.InitGeminiOrFallback | services/ai_service.py:110-116 | Gemini, else Groq, else OpenRouter |
| AiService.Service.InitOpenRouterOrFallback | services/ai_service.py:118-121 | OpenRouter, else Groq, else OpenRouter again |
| AiService.Service.InitGroqOrFallback | services/ai_service.py:123-131 | Groq, else OpenRouter |
| AiService.Service.InitGroqThenOpenRouter | services/ai_service.py:123-126 | the two steps of the Groq order one by one, untouched when neither is available |
| AiService.DetailedErrorsAreErrors | services/ai_service.py:203-263 | "AI Error:" and "Thinking Error:" replies are error responses |
| AiService.GeminiFailuresAreErrors | services/ai_service.py:190-204 | Gemini's answer comes back unchanged; every failure reply is an error response |
| AiService.GroqFailuresAreErrors | services/ai_service.py:255-263 | Groq's answer comes back unchanged; every failure reply is an error response |
| AiService.OpenRouterRetryNeverEnds | services/ai_service.py:239-247 | as written: configured with the fallback model and that model failing, the call recurses on itself and no amount of fuel reaches an answer (in CPython the recursion limit eventually ends it with an error reply, which the model does not count) |
| AiService.OpenRouterReply | services/ai_service.py:206-253 | unconfigured gives its message without a request; otherwise one or two requests, the second only to the fallback model after the first failed |
| AiService.OpenRouterReplyAgrees | services/ai_service.py:206-253 | for any configured model other than the fallback, the code as written returns exactly `OpenRouterReply` |
| AiService.Failing | services/ai_service.py:173-188 | the providers whose replies are error responses |
| AiService.FirstWorking | services/ai_service.py:282-300 | the position of the first provider of a chain whose reply is not an error |
| AiService.DisabledCallsNoProvider | services/ai_service.py:279-280 | a disabled service calls nobody and answers the "not initialised" error |
| AiService.FallbackCons | services/ai_service.py:282-300 | one step of the fallback chain |
| AiService.FallbackFindsWorking | services/ai_service.py:282-300 | the chain returns the first working reply, having called exactly the providers up to it |
| AiService.FallbackAllFail | services/ai_service.py:282-300 | when every provider fails, all were called and Gemini's reply is returned |
| AiService.GeminiGenerateIsFallback | services/ai_service.py:282-300 | `generate` with Gemini is the fallback chain Gemini, Groq when its client exists, OpenRouter when keyed |
| AiService.GeminiGroqOpenRouter | services/ai_service.py:282-300 | with a Groq client and an OpenRouter key the chain is all three |
| AiService.GeminiGroq | services/ai_service.py:282-300 | with a Groq client and no OpenRouter key the chain is Gemini then Groq |
| AiService.GeminiOpenRouter | services/ai_service.py:282-300 | without a Groq client the chain is Gemini then OpenRouter |
| AiService.GeminiAlone | services/ai_service.py:282-300 | with neither, Gemini alone |
| AiService.FallbackOfOne | services/ai_service.py:282-300 | a one-provider chain |
| AiService.FallbackOfTwo | services/ai_service.py:282-300 | a two-provider chain |
| AiService.FallbackOfThree | services/ai_service.py:282-300 | a three-provider chain |
| AiService.GeminiFallsBackInOrder | services/ai_service.py:282-300 | Gemini's `generate` returns the first working reply of its chain, or Gemini's own reply when all fail |
| AiService.SingleProviderNoFallback | services/ai_service.py:302-305 | OpenRouter and Groq are called alone, with no fallback |
| AiService.GeminiNeverReachesGroq | services/ai_service.py:110-116 | as written: a service set up on Gemini never calls Groq, because the Groq client is only created when Gemini is unavailable (the fallback it never reaches is at lines 287-292 of the same file) |
| AiService.NoGroqClientNoGroqCall | services/ai_service.py:288 | without a Groq client Groq is never called |
| AiService.SelectionWithGroqFallback | services/ai_service.py:65-116 | the corrected setup: same provider, with the Groq client created whenever Groq is available |
| AiService.GeminiFallsBackToGroq | services/ai_service.py:287-292 | in the corrected setup, a failing Gemini with a working Groq answers Groq's reply after calling the two |
| App.OwnerHearsOnlyOwner | app.py:460-464 | with an owner claimed, only the owner's frames are buffered, and frames of an unknown speaker never |
| App.FrameFilterCases | app.py:460-464 | listening with no ignore list and no owner keeps every non-empty frame; an ignored speaker is always dropped |
| App.CommandGate | app.py:353-369 | open without a lock; the lock owner always passes; anyone else only for `openall` as a guild admin or owner |
| App.GateAgreesWithOpenAll | app.py:353-369 | under a lock, the gate lets `openall` through exactly when `openall` itself would unlock (`openall` itself is app.py lines 839-852) |
| App.LockRefusesOthers | app.py:353-369 | under a lock, every other command of anyone but the owner is refused |
| App.Globals.constructor | app.py:45-50 | no owner, listening, no one ignored, no text lock (the text lock starts unset at app.py line 290) |
| App.Globals.Claim | app.py:812-814 | the author becomes the voice owner; nothing else changes |
| App.Globals.Ignore | app.py:817-818 | the member joins the ignore list; nothing else changes |
| App.Globals.Unignore | app.py:821-822 | the member leaves the ignore list (absent is fine); nothing else changes |
| App.Globals.Reset | app.py:825-827 | no owner and an empty ignore list; nothing else changes |
| App.Globals.OnlyMe | app.py:830-837 | outside a guild it raises; a guild admin or owner locks text to themself; anyone else changes nothing |
| App.Globals.OpenAll | app.py:839-852 | unlocks exactly when unlocked already, or the author is the lock owner, an admin or the guild owner; raises only for another member outside a guild |
| App.RemoveMentions | app.py:292-293 | removing mentions never lengthens the text |
| App.NoMentionKept | app.py:292-293 | a text without `<` is unchanged |
| App.LeadingMentionDropped | app.py:292-293 | both `<@id>` and `<@!id>` are removed |
| App.BareMentionIsEmpty | app.py:292-328 | a message that is only the bot's mention leaves nothing to answer |
| App.RouteMessage | app.py:296-342 | a chat reply needs a mention and an open lock or the lock owner, and a non-empty cleaned text; `!send ` forwards the stripped rest; other commands from users are always processed |
| App.LockSilencesMentions | app.py:322-324 | under a lock, other users' mentions are never answered |
| App.SegmentGate | app.py:482-490 | segments under 20000 bytes are dropped; accepted ones have an even length |
| App.AcceptedIffLoud | app.py:487-490 | an even segment whose RMS is `rms` is accepted exactly when `rms` is at least 100 |
| App.FirstPrefix | app.py:518-530 | the first wake phrase the transcript starts with, or none |
| App.StripWake | app.py:513-523 | a transcript passes exactly when its lower-cased stripped form starts with a wake phrase |
| App.MangaIsCut | app.py:526-530 | "manga" followed by anything leaves the stripped rest |
| App.TargetOf | app.py:540-542 | "everyone", "all" and "everybody" mean everyone; any other name is kept |
| App.FirstContained | app.py:627-633 | true exactly when some phrase occurs in the text |
| App.ParseCommand | app.py:539-654 | speech without a command prefix is a stop when it contains a stop phrase, else a leave on a leave phrase, else a reply with the original text |
| App.StopBeforeLeave | app.py:626-636 | a transcript with both a stop and a leave phrase stops listening and does not leave |
| App.MuteTargetNonEmpty | app.py:539-541 | "mute " followed by a name gives a mute of that non-empty name |
| App.FindMember | app.py:549-550 | the first member whose lower-cased name contains the target, or none when no member's does |
| App.EveryoneIds | app.py:542-568 | the ids of the channel's members, bots included only for unmute |
| App.HumanNames | app.py:640 | at most one name per member; every non-bot member's name is listed, and every listed name is a non-bot member's |
| App.HumanNamesAppend | app.py:640 | the names keep the members' order: two parts give the first part's names followed by the second's |
| App.HumanNamesOfOne | app.py:640 | one member gives its name exactly when it is not a bot |
| App.OtherChannel | app.py:617 | some voice channel other than the home channel, none exactly when there is no other |
| App.TrollPath | app.py:619-623 | alternating moves to the other channel and back, two per round trip |
| App.Respond | app.py:539-654 | mute everyone spares bots, unmute everyone includes them; other speech asks the AI with the human names when Groq is there, else echoes the first 30 characters |
| App.EveryoneMuteSparesBots | app.py:542-568 | every human is muted, every member unmuted, and no bot muted |
| App.NamedMuteHitsFirstMatch | app.py:549-559 | a named mute mutes the first matching member only, else says it cannot find them |
| App.TrollEndsAtHome | app.py:611-624 | a troll is four round trips ending in the home channel, or none |
| App.HandleSegment | app.py:482-656 | a segment crashes exactly when `struct.unpack` would; acting needs an accepted segment and a wake phrase |
| App.Handler | app.py:482-656 | the segment handler for a recogniser |
| App.HandlerCrashesOnlyOnOddLength | app.py:488-489 | only an odd-length segment of at least 20000 bytes crashes the loop |
| App.PassOnlyCuts | app.py:480-485 | a pass keeps every speaker and only empties a due buffer |
| App.FullPassCutsAll | app.py:480-485 | a pass that does not end leaves no due buffer behind |
| App.EvenBuffersNeverCrash | app.py:474-661 | with even buffers and an even-only crash, the loop ends only by a leave command |
| App.SpeechSink.constructor | app.py:448-455 | no buffers |
| App.SpeechSink.Write | app.py:460-468 | a filtered frame changes nothing; a kept one is appended to its speaker's buffer with the time, a new speaker joining the order; even buffers stay even for even frames |
| App.SpeechSink.Cleanup | app.py:470-472 | the buffers are cleared |
| App.SpeechSink.Pass | app.py:480-661 | one pass of the loop over the speakers, as `PassFrom` |
| App.RunPass | app.py:480-661 | the loop over the speakers computes `PassFrom` and keeps every speaker's entry |
| App.ProviderTimeout | app.py:78 | at least five seconds |
| App.TotalTimeout | app.py:79 | never below the provider timeout |
| App.Spent | app.py:172-205 | a provider never takes longer than the provider timeout |
| App.RunChain | app.py:172-206 | the chain takes at most the provider timeout per provider |
| App.FirstAnswerWins | app.py:172-206 | the first provider that answers in time gives the reply |
| App.NoAnswerNoBrain | app.py:206 | with no provider answering, the fixed "AI brain" message |
| App.GeminiAnswerIsReturned | app.py:170-212 | a Gemini answer within the provider timeout is returned whatever the timeouts say |
| App.LongTotalNeverTimesOut | app.py:208-212 | a total timeout of three provider timeouts never cuts the chain |
| App.Mock | app.py:915-916 | same length; odd positions upper-cased, even ones lower-cased |
| App.MockFrom | app.py:915-916 | the same from any starting position |
| App.MockKeepsLetters | app.py:915-916 | mocking keeps the letters up to case and is idempotent |
| Morse.Code | app.py:1005-1008 | table characters have a non-empty code with no space, and only they |
| Morse.LetterOfCode | app.py:1005-1008 | reading a code back gives its character: no two share a code |
| Morse.Token | app.py:1008 | the code of the upper-cased character, or the character itself outside the table |
| Morse.Tokens | app.py:1008 | one token per character |
| Morse.DecodeEveryToken | app.py:1008 | decoding the tokens of table text gives it upper-cased |
| Morse.EncodeRoundTrip | cogs/utility_cog.py:218-233 | decoding the encoding of table text gives it upper-cased (the same table and encoder are app.py lines 1003-1008) |
| Morse.EncodeKeepsPositions | cogs/utility_cog.py:232 | splitting the encoding on spaces gives back one token per character (the legacy encoder is app.py line 1008) |
| AuthJson.Get | cogs/auth_cog.py:1138-1146 | the stored value when the key is present, else the default |
| AuthJson.ParseInt | cogs/auth_cog.py:43-52 | a string `int()` accepts is never empty |
| AuthJson.IntToString | cogs/auth_cog.py:1140 | the decimal text of an integer is non-empty with no surrounding blanks (also used at line 1463 of the same file) |
| AuthJson.IntRoundTrip | cogs/auth_cog.py:43-52 | `int(str(i)) == i` |
| AuthJson.StripOfTrimmedString | cogs/auth_cog.py:43-52 | stripping text without surrounding blanks changes nothing |
| AuthJson.ConvertedMembers | cogs/auth_cog.py:46-51 | the loop keeps exactly the entries `int()` accepts |
| AuthJson.InsertUnique | cogs/auth_cog.py:52 | inserting into an increasing list keeps it increasing and adds exactly that value |
| AuthJson.SortedUnique | cogs/auth_cog.py:52 | `sorted(set(xs))` is strictly increasing with exactly the members of `xs` |
| AuthJson.IncreasingListsWithSameMembers | cogs/auth_cog.py:52 | two strictly increasing lists with the same members are equal, so the result is determined by its members |
| AuthJson.HeadIsLeast | cogs/auth_cog.py:52 | the first entry of an increasing list is its least |
| AuthJson.IntListMeaning | cogs/auth_cog.py:43-52 | the normalised list is strictly increasing, empty for a non-list, and holds exactly the integers of the list's convertible entries |
| AuthJson.IntListIdempotent | cogs/auth_cog.py:43-52 | normalising a normalised list changes nothing |
| AuthJson.NormalizeIntList | cogs/auth_cog.py:43-52 | the loop computes `IntList` |
| AuthData.ListAt | cogs/auth_cog.py:1466-1470 | a guild's list, or empty when absent |
| AuthData.RolesNest | cogs/auth_cog.py:1450-1460 | the owner is an admin and a moderator, every admin a moderator, and a moderator is exactly a listed moderator or admin or the owner |
| AuthData.BlacklistScope | cogs/auth_cog.py:1462-1478 | in a guild: that guild's or the legacy global list; outside: any list; the guild case implies the global one |
| AuthData.OverrideLookup | cogs/auth_cog.py:1338-1345 | the guild's own record shadows the legacy global one, and any record returned comes from one of the two |
| AuthData.PermissionOutsideGuild | cogs/auth_cog.py:1491-1497 | no command or no guild: allowed |
| AuthData.DefaultPolicy | cogs/auth_cog.py:1501-1518 | without an override, refused exactly for the fixed admin commands run by a non-admin |
| AuthData.OverridePolicy | cogs/auth_cog.py:1520-1540 | with an override, the owner passes, anyone else exactly when not disabled, in a non-empty user list if any, holding a listed role if any |
| AuthData.OwnerAlwaysPermitted | cogs/auth_cog.py:1501-1522 | the owner is never refused |
| AuthData.BlankOverrideOpensCommand | cogs/auth_cog.py:1520-1540 | a blank override opens the command to everyone, even a default admin command |
| AuthData.LockAdmitsOnlyItsOwner | cogs/auth_cog.py:2784-2798 | under the only-me lock, only its owner gets through except for `openall` by the lock owner, a bot admin or the guild owner |
| AuthData.BlacklistOverridesPermission | cogs/auth_cog.py:2800-2810 | a blacklisted user gets through only by the lock's `openall` exemption; without a lock and blacklist the global check is `check_command_permission` |
| AuthData.AllGuildKeys | cogs/auth_cog.py:1027-1038 | exactly the guilds some per-guild map mentions |
| AuthData.UnknownGuildHasEmptyPayload | cogs/auth_cog.py:1138-1146 | a guild no map mentions has the empty payload |
| AuthData.PurgeForgetsOnlyThatGuild | cogs/auth_cog.py:1043-1046 | purging removes exactly that guild from the keys and empties its payload, leaving other guilds and the global lists unchanged |
| AuthMigrate.NormalizeOverrideIsNormal | cogs/auth_cog.py:1214-1221 | a normalised override has increasing role and user lists, and is a record exactly when the input is an object |
| AuthMigrate.StoreOptions | cogs/auth_cog.py:444-455 | every option the store keeps has a non-empty emoji |
| AuthMigrate.SanitizedPayloadIsNormal | cogs/auth_cog.py:490-498 | a sanitised guild payload has normalised lists, options and overrides |
| AuthMigrate.SanitizeRaisesOnlyOn | cogs/auth_cog.py:434-498 | sanitising raises exactly when the reaction-role options are not a list or the autokick age is not an integer |
| AuthMigrate.GuildListMapIsNormal | cogs/auth_cog.py:1153-1162 | every kept guild list is non-empty and strictly increasing |
| AuthMigrate.LegacyOverridesReachEveryGuild | cogs/auth_cog.py:1223-1238 | a legacy global override map is copied to every known guild (or kept under the global key), so every guild finds it |
| AuthMigrate.LegacyBlacklistIsKept | cogs/auth_cog.py:1277-1286 | a user on the legacy global blacklist stays blacklisted in every known guild after migration |
| AuthMigrate.MigratedListsAreNormal | cogs/auth_cog.py:1255-1292 | after migration every role and guild list is non-empty where present and strictly increasing |
| AuthMigrate.OptionWithoutEmoji | cogs/auth_cog.py:1172-1185 | an option with a role id and no emoji becomes one option carrying the default emoji, whichever default is used |
| AuthMigrate.DefaultOptionAsWritten | cogs/auth_cog.py:1180 | with the default as the file spells it (the three characters U+00E2 U+0153 U+2026), an option without an emoji carries that text, so a check-mark reaction matches no option |
| AuthMigrate.DefaultOptionIsCheckMark | cogs/auth_cog.py:1180 | with the intended default, an option without an emoji answers the check mark U+2705 |
| AuthSetupVerify.RoleIdFromMention | cogs/auth_cog.py:1358-1365 | a role id exactly for a stripped `<@&digits>` token |
| AuthSetupVerify.MentionRoundTrip | cogs/auth_cog.py:1358-1365 | the mention of a role id reads back as that id |
| AuthSetupVerify.NormalizeEmoji | cogs/auth_cog.py:1368-1376 | empty exactly for a blank token |
| AuthSetupVerify.StripBlankLemma | cogs/auth_cog.py:1370-1372 | stripping gives the empty text exactly for blank text |
| AuthSetupVerify.RoleById | cogs/auth_cog.py:1392 | the guild role with that id, or none when no role has it |
| AuthSetupVerify.RoleByName | cogs/auth_cog.py:1411 | a guild role with that name, or none when no role has it |
| AuthSetupVerify.MentionStepShape | cogs/auth_cog.py:1390-1407 | a role mention step adds one assignable pair and clears the pending emoji; the pair takes the pending emoji, or the default emoji when it is the first pair, for either spelling of the default |
| AuthSetupVerify.NameOrEmojiStepShape | cogs/auth_cog.py:1409-1422 | a name after an emoji adds one assignable pair; any other token becomes the pending emoji |
| AuthSetupVerify.StepHasShape | cogs/auth_cog.py:1389-1422 | each token either adds one assignable pair with a non-empty emoji or sets the pending emoji |
| AuthSetupVerify.SecondBareMentionIsRefused | cogs/auth_cog.py:1398-1405 | only the first role may omit its emoji; a later bare mention is refused |
| AuthSetupVerify.StepKeepsWellFormed | cogs/auth_cog.py:1389-1422 | a step keeps every pair assignable with a non-empty emoji and only appends |
| AuthSetupVerify.ScanKeepsWellFormed | cogs/auth_cog.py:1389-1422 | the same over the whole token list |
| AuthSetupVerify.ScanStopsAtFirstError | cogs/auth_cog.py:1389-1422 | the first refused token ends the scan, whatever follows |
| AuthSetupVerify.KeepOneMore | cogs/auth_cog.py:1434-1446 | keeping a pair with a new emoji and a new role keeps the deduplication invariant |
| AuthSetupVerify.DedupFromDistinct | cogs/auth_cog.py:1434-1446 | the kept pairs have distinct emoji and distinct roles |
| AuthSetupVerify.DedupFromSubset | cogs/auth_cog.py:1434-1446 | only given pairs are kept |
| AuthSetupVerify.DedupFromCoversRoles | cogs/auth_cog.py:1434-1446 | every role given is kept by some pair |
| AuthSetupVerify.DedupFromSucceeds | cogs/auth_cog.py:1434-1446 | distinct emoji never fail |
| AuthSetupVerify.DedupFromFailure | cogs/auth_cog.py:1438-1439 | a failure names an emoji that occurs twice |
| AuthSetupVerify.ShiftWitness | cogs/auth_cog.py:1438-1439 | shifting the duplicate's position back by one |
| AuthSetupVerify.ParsedPairsAreDistinct | cogs/auth_cog.py:1378-1448 | a successful parse, with either spelling of the default emoji, gives at least one pair, with distinct emoji and roles, every role below the bot's top role and every emoji non-empty |
| AuthSetupVerify.RepeatedRoleIsDropped | cogs/auth_cog.py:1440-1441 | a role repeated under another emoji keeps only its first pair |
| AuthSetupVerify.RepeatedEmojiIsRefused | cogs/auth_cog.py:1438-1439 | an emoji used twice is refused |
| AuthSetupVerify.ParseMultiVerifyPairs | cogs/auth_cog.py:1378-1448 | the loop over the tokens computes `ParsePairs`, the parser with the intended check-mark default |
| AuthSetupVerify.DefaultEmojiAsWritten | cogs/auth_cog.py:1404 | with the default as the file spells it, a bare first role gets the three characters U+00E2 U+0153 U+2026, not the check mark, and `<@&1> ✅ <@&2>` gives two pairs |
| AuthSetupVerify.DefaultEmojiIsCheckMark | cogs/auth_cog.py:1404 | with the intended default, a bare first role gets the check mark U+2705, so `<@&1> ✅ <@&2>` is refused as a duplicate emoji |
| AuthSetupVerify.DedupPairs | cogs/auth_cog.py:1432-1448 | the deduplication loop computes `Dedup` |
| AuthBackup.StrLessIrreflexive | cogs/auth_cog.py:1097-1101 | no name sorts before itself |
| AuthBackup.StrLessAsymmetric | cogs/auth_cog.py:1097-1101 | the name order is asymmetric |
| AuthBackup.StrLessTransitive | cogs/auth_cog.py:1097-1101 | the name order is transitive |
| AuthBackup.StrLessTotal | cogs/auth_cog.py:1097-1101 | any two different names are ordered |
| AuthBackup.InsertDescending | cogs/auth_cog.py:1097-1101 | inserting into a descending list keeps it descending and adds exactly that name |
| AuthBackup.PrependKeepsDescending | cogs/auth_cog.py:1097-1101 | a name no smaller than the rest may lead a descending list |
| AuthBackup.InsertInFront | cogs/auth_cog.py:1097-1101 | a name no smaller than the head may lead it |
| AuthBackup.SortDescending | cogs/auth_cog.py:1097-1101 | `sorted(..., reverse=True)` by name: descending and a permutation |
| AuthBackup.Snapshots | cogs/auth_cog.py:1097-1101 | exactly the names of the directories starting with `snapshot_` |
| AuthBackup.SnapshotsOnce | cogs/auth_cog.py:1097-1101 | with distinct directory names, each snapshot is listed once |
| AuthBackup.TwiceCountsTwice | cogs/auth_cog.py:1097-1101 | a name at two positions occurs at least twice |
| AuthBackup.RetentionCounts | cogs/auth_cog.py:1102-1103 | the kept and the removed snapshots together are all of them, `max(1, keep)` are kept (or all when fewer), and at least one survives |
| AuthBackup.KeptAreNewer | cogs/auth_cog.py:1097-1103 | every kept snapshot is newer than every removed one |
| AuthBackup.NewestIsKept | cogs/auth_cog.py:1102-1103 | the newest snapshot, the one just made, is never removed |
| AuthBackup.OnlySnapshotsRemoved | cogs/auth_cog.py:1102-1103 | only snapshot directories are removed |
| AuthBackup.LatestIsNoSnapshot | cogs/auth_cog.py:1105-1108 | the `latest` mirror is never taken for a snapshot |
| AuthBackup.WithoutName | cogs/auth_cog.py:1107 | removing a directory keeps all the others |
| AuthBackup.RemoveDirs | cogs/auth_cog.py:1102-1103 | the loop removes every doomed directory except those whose removal fails, and keeps everything else |
| AuthBackup.NewSnapshotSurvives | cogs/auth_cog.py:1097-1103 | a snapshot in the listing whose name is the greatest is not among those removed, and is not `latest` |
| AuthBackup.CreateBackupSnapshot | cogs/auth_cog.py:1085-1109 | with no database files nothing happens; otherwise a snapshot named after the timestamp is made, the retention removes the older snapshots beyond the limit except those whose removal fails, `latest` is replaced, and the new snapshot is in the listing afterwards whenever its name is the greatest |
| AuthBlacklistPicker.PagesAreDisjoint | cogs/auth_cog.py:706-709 | no user appears on two pages |
| AuthBlacklistPicker.BlacklistPicker.constructor | cogs/auth_cog.py:663-693 | page 0 and the guild's blacklist cleaned, sorted and without repeats |
| AuthBlacklistPicker.BlacklistPicker.CurrentPageIds | cogs/auth_cog.py:706-709 | at most 25 ids of the list, empty only when the list is |
| AuthBlacklistPicker.BlacklistPicker.RefreshIds | cogs/auth_cog.py:684-693 | the ids are re-read from the cog as a sorted list without repeats; the page is kept |
| AuthBlacklistPicker.BlacklistPicker.Prev | cogs/auth_cog.py:750-753 | one page back, never below the first |
| AuthBlacklistPicker.BlacklistPicker.Next | cogs/auth_cog.py:755-758 | one page on, never past the last |
| AuthBlacklistPicker.BlacklistPicker.Select | cogs/auth_cog.py:629-656 | the first occurrence of the user leaves the guild's blacklist and a save is queued when it was there; the menu closes exactly when no one is left, else the page is clamped to the last |
| AuthBlacklistPicker.SelectedUserIsGone | cogs/auth_cog.py:629-640 | with no repeats, the removed user is no longer listed |
| Paging.TotalPages | cogs/auth_cog.py:678-682 | at least one page, and exactly enough pages of 25 for a non-empty list (the help cog pages the same way, cogs/help_cog.py lines 88-160) |
| Paging.PageItems | cogs/auth_cog.py:706-709 | at most 25 entries, each the entry at its place in the list |
| Paging.EveryItemHasItsPage | cogs/auth_cog.py:678-709 | the entry at position `k` is on page `k / 25`, which exists |
| Paging.PageEmptyOnlyWhenListIs | cogs/auth_cog.py:678-709 | a page that exists is empty only when the whole list is |
| Paging.PrevPage | cogs/auth_cog.py:750-751 | one back, never below zero |
| Paging.NextPage | cogs/auth_cog.py:755-756 | one on, never past the last page |
| Paging.ButtonsStayInRange | cogs/auth_cog.py:750-758 | both buttons keep the page in range, staying put only at their end |
| Paging.PageControls | cogs/auth_cog.py:730-764 | a select menu exactly when there are entries, buttons exactly with more than 25, each disabled at its end |
| AuthCog.RemovedGuildSavesAreDropped | cogs/auth_cog.py:990-997 | after a guild is removed and purged, a save for it is dropped (guild removal is lines 2762-2779 of the same file) |
| AuthCog.PurgeOneMore | cogs/auth_cog.py:1043-1046 | purging guilds one at a time adds up to purging the set |
| AuthCog.PurgeAllForgetsOnlyThoseGuilds | cogs/auth_cog.py:1043-1066 | purging a set of guilds forgets exactly those and leaves others' payloads |
| AuthCog.RemoveFirst | cogs/auth_cog.py:1769 | `list.remove` when the value is present: one entry fewer, every other value kept; absent, unchanged (the same call appears at lines 640 and 2169 of the same file) |
| AuthCog.RemoveFirstFromDistinct | cogs/auth_cog.py:1769 | from a list without repeats the value is gone |
| AuthCog.MappedRole | cogs/auth_cog.py:2072-2076 | the role of the first option with that emoji, none when no option has it |
| AuthCog.ReactionElsewhereVerifiesNoOne | cogs/auth_cog.py:2064-2102 | a reaction on another message, an unmapped emoji, or a role the guild lacks verifies no one |
| AuthCog.StaleRolesNeverClearVerification | cogs/auth_cog.py:2154-2165 | as written: while the member's role list still shows the removed role, the check always finds them verified |
| AuthCog.StillVerifiedMeaning | cogs/auth_cog.py:2154-2168 | the corrected check clears verification exactly when the removed role was the only mapped role held |
| AuthCog.Cog.constructor | cogs/auth_cog.py:903-929 | the loaded data, the owner, no lock, an empty queue and no deleted guilds |
| AuthCog.Cog.EnqueueSave | cogs/auth_cog.py:990-1003 | a save of a deleted guild the data no longer knows is dropped, a known one revives it; an already queued save is coalesced; otherwise it is appended and marked pending |
| AuthCog.Cog.WorkerStep | cogs/auth_cog.py:1005-1025 | the head save runs and leaves the queue and the pending set: the global one writes the sorted lists, a guild one writes the guild's payload unless its key is empty or deleted, and a write that raises leaves the store as it was |
| AuthCog.Cog.Drain | cogs/auth_cog.py:1005-1025 | once the queue is drained nothing is pending; every live guild queued with a write that succeeds holds its payload in the store; the records of deleted, unqueued or failing guilds are untouched; the global record is rewritten exactly when a succeeding global save was queued; data, owner and lock stay (the worker loop is lines 1073-1079 of the same file) |
| AuthCog.Cog.SaveAuthData | cogs/auth_cog.py:1325-1336 | one guild's save is enqueued (pending, and queued anew unless already pending), or with no guild the global save and every known guild's |
| AuthCog.Cog.OnGuildRemove | cogs/auth_cog.py:2762-2779 | the guild is marked deleted, purged from memory, its pending save dropped and its record deleted |
| AuthCog.Cog.EnsureGuildRecord | cogs/auth_cog.py:542-555 | a missing record is created empty; an existing one is kept (the empty record is lines 359-361 of the same file) |
| AuthCog.Cog.OnGuildJoin | cogs/auth_cog.py:2754-2760 | the guild is undeleted; it keeps its record or gets an empty one; its save becomes pending and is queued unless it already was; data, the global record, owner and lock stay |
| AuthCog.Cog.EnsureRecords | cogs/auth_cog.py:1056-1057 | every active guild has a record and existing records are unchanged |
| AuthCog.Cog.RemoveOrphans | cogs/auth_cog.py:1059-1068 | the orphans are purged from memory and store, marked deleted, and their pending saves dropped |
| AuthCog.Cog.Bootstrap | cogs/auth_cog.py:1048-1071 | afterwards the store holds exactly the active guilds, orphans are deleted, and the global save and every known guild's save are pending |
| AuthCog.Cog.EnsureCommandOverride | cogs/auth_cog.py:1347-1356 | an existing record is returned unchanged; otherwise a blank record is stored and returned |
| AuthCog.Cog.Blacklist | cogs/auth_cog.py:1722-1749 | refused for non-admins and for admin targets; otherwise the target is appended once and saved, or reported already listed; either way they end blacklisted |
| AuthCog.Cog.DropFromBlacklist | cogs/auth_cog.py:636-640 | removes the first occurrence and saves exactly when the user was listed |
| AuthCog.Cog.Unblacklist | cogs/auth_cog.py:1751-1780 | refused for non-admins; a listed user is removed and saved; an unlisted one changes nothing |
| AuthCog.Cog.OnReactionAdd | cogs/auth_cog.py:2057-2114 | the member `VerifiedByReaction` names is verified afterwards, appended and saved when new; with no one named nothing changes |
| AuthCog.Cog.OnReactionRemove | cogs/auth_cog.py:2116-2168 | with the corrected check, the member `UnverifiedByReaction` names loses their verification and is saved; otherwise nothing changes |
| UtilityCog.CogCheckIsAdmin | cogs/utility_cog.py:22-35 | every utility command needs the Auth cog and a bot admin or the owner; without the Auth cog all are refused |
| UtilityCog.OnlyMe | cogs/utility_cog.py:254-261 | without the Auth cog nothing happens; otherwise the lock is set to the author and nothing else changes |
| UtilityCog.OpenAll | cogs/utility_cog.py:264-279 | without the Auth cog nothing happens; with no lock it reports so; otherwise it unlocks exactly for the lock owner or an admin, else is refused and changes nothing |
| UtilityCog.CogCheckedCallerMayOpen | cogs/utility_cog.py:22-35 | anyone past the cog check may open the lock, so the refusal branch is reachable only through the lock owner test (the lock owner test is line 276 of the same file) |
| UtilityCog.CalcAllowedHasNoNames | cogs/utility_cog.py:81-84 | an expression past the character filter holds no letter, underscore, quote, bracket or comma |
| UtilityCog.CalcAllowedAppend | cogs/utility_cog.py:81-84 | the filter accepts a concatenation exactly when it accepts both parts |
| UtilityCog.Multiplier | cogs/utility_cog.py:104 | seconds, minutes, hours and days as seconds |
| UtilityCog.Remind | cogs/utility_cog.py:95-109 | a reminder never waits longer than 24 hours |
| UtilityCog.RemindReadsValue | cogs/utility_cog.py:98-109 | digits then a unit give that many units in seconds, refused above 24 hours, whatever follows |
| UtilityCog.DigitRunOfDigits | cogs/utility_cog.py:98 | the leading digit run is exactly the digits |
| UtilityCog.RemindIgnoresCase | cogs/utility_cog.py:98 | the duration is read case-insensitively |
| UtilityCog.EmojiOf | cogs/utility_cog.py:195-204 | the mapping covers exactly the lower-case letters, the digits, `!`, `?` and the space, each with a non-empty piece |
| UtilityCog.EmojiPiece | cogs/utility_cog.py:206 | every piece ends in a space and has at least two characters |
| UtilityCog.EmojiPieces | cogs/utility_cog.py:206 | at least two characters per input character |
| UtilityCog.Emojify | cogs/utility_cog.py:206-207 | the reply is the joined pieces cut at 2000 characters |
| UtilityCog.EmojifyIgnoresCase | cogs/utility_cog.py:206 | the pieces do not depend on case |
| UtilityCog.EmojifyLetters | cogs/utility_cog.py:195-206 | each letter becomes its regional indicator followed by a space |
| UtilityCog.TableRowsMatch | cogs/utility_cog.py:212-215 | both rows of the flip table have 62 characters, so `str.maketrans` accepts them |
| UtilityCog.IndexOf | cogs/utility_cog.py:215 | the first position of the character, none when absent |
| UtilityCog.Translate | cogs/utility_cog.py:215-216 | same length, each character translated |
| UtilityCog.Reverse | cogs/utility_cog.py:216 | same length, read back to front |
| UtilityCog.FlipIsMirroredTranslation | cogs/utility_cog.py:210-216 | the flipped text reads the translated characters back to front |
| UtilityCog.TranslateAppend | cogs/utility_cog.py:215 | translation distributes over concatenation |
| UtilityCog.ReverseAppend | cogs/utility_cog.py:216 | reversal swaps the parts of a concatenation |
| UtilityCog.FlipAppend | cogs/utility_cog.py:210-216 | flipping swaps the parts of a concatenation |
| UtilityCog.FlipKeepsOthers | cogs/utility_cog.py:215 | characters outside the table are kept |
| UtilityCog.Uptime | cogs/utility_cog.py:244-251 | hours, minutes and seconds add up to the elapsed seconds, with minutes and seconds under 60 |
| UtilityCog.UptimeIsUnique | cogs/utility_cog.py:247-248 | that split is the only one |
| AdminCog.ApplyVoice | cogs/admin_cog.py:55-180 | refused for a member not in voice; kick disconnects, move changes only the channel, mute/unmute and deafen/undeafen set only their flag |
| AdminCog.MuteThenUnmute | cogs/admin_cog.py:86-180 | muting then unmuting (deafening then undeafening) leaves the member unmuted (undeafened) and otherwise as before |
| AdminCog.KickedMemberIsRefused | cogs/admin_cog.py:55-58 | after a voice kick every further voice action is refused |
| AdminCog.MuteAll | cogs/admin_cog.py:118-136 | refused outside voice; otherwise every human whose edit succeeds is muted, bots kept, and the count reported |
| AdminCog.UnmuteAll | cogs/admin_cog.py:140-156 | refused outside voice; otherwise every member whose edit succeeds is unmuted, bots included, and the count reported |
| AdminCog.BulkCountsCompare | cogs/admin_cog.py:118-156 | muteall never counts more than the humans, nor more than unmuteall |
| AdminCog.MuteAllCountsEveryHuman | cogs/admin_cog.py:118-156 | when every edit succeeds, muteall counts the humans and unmuteall everyone |
| AdminCog.FindBanned | cogs/admin_cog.py:238-250 | the first ban entry whose id or case-folded name matches, none when none does |
| AdminCog.UnbanById | cogs/admin_cog.py:238-250 | an id finds its own ban entry when no earlier entry is named like that id |
| AdminCog.Clear | cogs/admin_cog.py:260-264 | the purge limit is the capped amount plus the command message, at most the available messages go, and one fewer is reported |
| AdminCog.ClearReportsCappedAmount | cogs/admin_cog.py:260-264 | the report never exceeds the cap, equals the requested amount when enough messages exist, and is at least -1 |
| AdminCog.NegativeClearReportsMinusOne | cogs/admin_cog.py:260-264 | a negative amount deletes nothing and reports -1 |
| AdminCog.ChangeRole | cogs/admin_cog.py:278-296 | refused exactly by the hierarchy guard; otherwise the role is added to or removed from the member's roles |
| AdminCog.RoleGuardIsStrict | cogs/admin_cog.py:278-296 | allowed exactly for the guild owner or a role below the author's top role; no one else may hand out their own top role |
| AdminCog.AddThenRemove | cogs/admin_cog.py:278-296 | adding then removing a role leaves the member without it |
| AdminCog.Limits.constructor | cogs/admin_cog.py:12-17 | the four default limits |
| AdminCog.Limits.SetLimit | cogs/admin_cog.py:309-323 | no key lists the limits; an unknown key, or a value below one, changes nothing; otherwise the lower-cased key is set |
| AdminCog.SetLimitIsAdminOnly | cogs/auth_cog.py:1501-1518 | without an override, `setlimit` never runs for a non-admin |
| HelpCog.FirstPer | cogs/help_cog.py:245-270 | the kept commands come from the walk, pass the filter, were not seen before, and have distinct qualified names (the same walk is `_cog_all_commands`, lines 22-34 of the same file) |
| HelpCog.FirstPerCovers | cogs/help_cog.py:245-270 | every command that passes the filter is kept under its name unless that name was seen before (the same walk is `_cog_all_commands`, lines 22-34 of the same file) |
| HelpCog.FirstPerKeepsFirst | cogs/help_cog.py:245-270 | the first passing command of each name is the one kept (the same walk is `_cog_all_commands`, lines 22-34 of the same file) |
| HelpCog.KeepFirstPerName | cogs/help_cog.py:22-34 | the loop computes `FirstPer` |
| HelpCog.VisibleCommands | cogs/help_cog.py:22-34 | `_cog_all_commands` keeps only visible commands of the walk, one per qualified name, the first of each |
| HelpCog.CogAllCommands | cogs/help_cog.py:22-34 | the loop computes `Visible` |
| HelpCog.NoAuthNoGuildNoPrivilege | cogs/help_cog.py:10-17 | without the Auth cog and outside a guild nobody is privileged |
| HelpCog.OfferedFrom | cogs/help_cog.py:186-195 | the restricted categories are offered only to privileged users, the public ones to everyone, nothing else |
| HelpCog.OfferedCategories | cogs/help_cog.py:186-195 | the public categories always; admin, auth and utility exactly to privileged users |
| HelpCog.LoadedWalks | cogs/help_cog.py:228 | only loaded cogs are walked |
| HelpCog.CandidatesAreVisible | cogs/help_cog.py:245-270 | every listed command is visible and from a selected cog |
| HelpCog.UnprivilegedSeeOnlyRunnable | cogs/help_cog.py:258-270 | unprivileged users, and public categories, list only commands that can run, never one whose check raises |
| HelpCog.PrivilegedSeeEveryName | cogs/help_cog.py:248-256 | privileged users browsing a restricted category see every visible command name |
| HelpCog.CandidateHasCommandsOf | cogs/help_cog.py:248-256 | every visible command of a selected cog is a candidate |
| HelpCog.SelectCategory | cogs/help_cog.py:201-277 | the callback computes `CategoryListing` |
| HelpCog.PrependKeepsSorted | cogs/help_cog.py:97 | a least element may lead a sorted list |
| HelpCog.InsertBy | cogs/help_cog.py:97 | inserting keeps the list sorted by the key and adds exactly that element |
| HelpCog.SortBy | cogs/help_cog.py:97 | sorting by a key gives a sorted permutation (the second sort is line 317 of the same file) |
| HelpCog.CommandPageView.constructor | cogs/help_cog.py:92-99 | page 0 and the commands sorted by name, a permutation of the listing |
| HelpCog.CommandPageView.CurrentPage | cogs/help_cog.py:107-110 | at most 25 commands, each at its place, empty only when there are none |
| HelpCog.CommandPageView.Prev | cogs/help_cog.py:88-160 | one page back, never below the first |
| HelpCog.CommandPageView.Next | cogs/help_cog.py:88-160 | one page on, never past the last |
| HelpCog.Capitalize | cogs/help_cog.py:311 | same length |
| HelpCog.Mentions | cogs/help_cog.py:313 | each command as `` `!name` `` |
| HelpCog.MenuFields | cogs/help_cog.py:288-320 | each field belongs to a block, is non-empty and sorted, holds the block's command mentions, and a restricted block only for privileged users |
| HelpCog.UnprivilegedMenu | cogs/help_cog.py:303-305 | unprivileged users see only the Voice, Troll and Fun blocks |
| HelpCog.UtilityIsRestricted | cogs/help_cog.py:304 | the Utility block is restricted |
| HelpCog.AdminIsRestricted | cogs/help_cog.py:304 | the Admin block is restricted |
| HelpCog.ParamToken | cogs/help_cog.py:357-362 | the name in brackets or angle brackets |
| HelpCog.ParamTokenRoundTrip | cogs/help_cog.py:357-362 | the token tells whether the parameter has a default and keeps its name |
| HelpCog.ParamTokens | cogs/help_cog.py:357-362 | one token per parameter |
| HelpCog.UsageListsEveryParam | cogs/help_cog.py:357-364 | the usage line splits back into one token per parameter, each reading back as it |
| HelpCog.Hh | cogs/help_cog.py:391-432 | no name gives the main menu; details only for a found command that the user may run or when privileged; a refusal only for an unprivileged user |
| HelpCog.RaisingCheckRefuses | cogs/help_cog.py:415-420 | a check that raises refuses like one that fails, and privileged users are never refused |
| TrollCog.LimitsAlwaysUsable | cogs/troll_cog.py:17-28 | every troll limit is present and positive, whether the admin cog is loaded or not |
| TrollCog.Clamped | cogs/troll_cog.py:139-156 | at most the limit; the amount itself when within it; none for a non-positive amount |
| TrollCog.Spam | cogs/troll_cog.py:150-156 | the text, once per clamped message |
| TrollCog.Repeat | cogs/troll_cog.py:154-155 | `n` copies of the text |
| TrollCog.Spamping | cogs/troll_cog.py:139-146 | exactly `min(amount, spamping_max)` pings, none for a non-positive count, so never more than the limit |
| TrollCog.SpamIsCapped | cogs/troll_cog.py:139-156 | spam never exceeds its limit; with the defaults, at most 6 messages and 200 pings (the limits come from lines 17-28 of the same file) |
| TrollCog.Troll | cogs/troll_cog.py:44-64 | refused when the target is not in voice or there is no other channel; otherwise alternate moves to the other channel and back, at most two per trip, cut at the first failure |
| TrollCog.TrollEnding | cogs/troll_cog.py:44-64 | without a failure the target ends at home; failing on the way back strands them away |
| TrollCog.Humans | cogs/troll_cog.py:74 | the non-bot members, and never more entries than members |
| TrollCog.HumansAppend | cogs/troll_cog.py:74 | the humans of two parts are the first part's followed by the second's, so the comprehension keeps the channel's order and repeats |
| TrollCog.HumansOfOne | cogs/troll_cog.py:74 | one member is kept exactly when it is not a bot |
| TrollCog.HumansCount | cogs/troll_cog.py:74 | the number of humans, which `scramble` compares with its limit, is the number of members less the number of bots |
| TrollCog.Scramble | cogs/troll_cog.py:68-88 | refused outside voice; all humans when within the limit, else the random sample |
| TrollCog.ScrambleIsCapped | cogs/troll_cog.py:68-88 | never more than the limit, never a bot, only members of the author's channel |
| TrollCog.Jumpscare | cogs/troll_cog.py:31-40 | needs the bot in voice; targets the named member or the author |
| FunCog.Rizz | cogs/fun_cog.py:26-35 | the five bands, each exactly its score range |
| FunCog.RizzIsMonotone | cogs/fun_cog.py:26-35 | a higher score never gets a lower band |
| FunCog.Iq | cogs/fun_cog.py:45-52 | the four bands, each exactly its range |
| FunCog.IqIsMonotone | cogs/fun_cog.py:45-52 | a higher IQ never gets a lower band |
| FunCog.RateEmoji | cogs/fun_cog.py:77-82 | fire exactly above 8, poop exactly below 3 |
| FunCog.Heart | cogs/fun_cog.py:86-108 | broken exactly below 30, sparkling exactly above 70, red in between |
| FunCog.Times | cogs/fun_cog.py:59-93 | `c * n`: `n` copies, none for `n <= 0` |
| FunCog.ShipBarShape | cogs/fun_cog.py:91-93 | ten cells, the first `score / 10` full and the rest empty |
| FunCog.PpShaft | cogs/fun_cog.py:56-62 | `8`, `size` signs `=`, `D` |
| FunCog.Choice | cogs/fun_cog.py:239-244 | refused with fewer than two options, else one of them |
| FunCog.Roll | cogs/fun_cog.py:252-256 | raises for a maximum below one; otherwise a value from 1 to the maximum |
| FunCog.Rps | cogs/fun_cog.py:258-278 | an invalid choice is refused; a tie exactly on equal hands, a user win exactly on the three winning pairs |
| FunCog.RpsIsFair | cogs/fun_cog.py:264-276 | between different hands exactly one wins, and swapping them swaps the winner |
| FunCog.OptionIsLower | cogs/fun_cog.py:262-264 | the options are lower case already |
| FunCog.Slot | cogs/fun_cog.py:280-293 | a jackpot exactly when all three match; two matches exactly when neighbours match but not all |
| FunCog.OuterPairIsNoMatch | cogs/fun_cog.py:288-293 | matching outer reels around a different middle reel are no match |
| Chunking.Chunks | cogs/llm_agent_cog.py:28-55 | `[s[i:i+n] for i in range(0, len(s), n)]`: no pieces exactly for empty text, each piece non-empty and at most `n` long, all but the last exactly `n` (cogs/agent_cog.py lines 28-29 and 44-45 chunk the same way) |
| Chunking.ChunksConcat | cogs/llm_agent_cog.py:28-29 | the pieces concatenate back to the text: nothing is lost or repeated (cogs/agent_cog.py lines 28-29 chunk the same way) |
| Chunking.ChunkCount | cogs/llm_agent_cog.py:28-29 | the number of pieces is the least that covers the text (cogs/agent_cog.py lines 28-29 chunk the same way) |
| Chunking.Truncate | cogs/agent_cog.py:58 | `s[:n]`: length `min(len(s), n)`, a prefix of the text, and the whole text exactly when it fits (so `agenttask`'s conditional cut is the same cut) (cogs/llm_agent_cog.py lines 88 and 104 cut the same way) |
| LlmAgentCog.AgentReplies | cogs/llm_agent_cog.py:24-62 | at least one message; only the first is a reply; fenced exactly when the response exceeds 1900 characters; each message within Discord's 2000; the bodies concatenate to the response |
| LlmAgentCog.Bodies | cogs/llm_agent_cog.py:30-34 | the text of each message, in order |
| LlmAgentCog.Recorded | cogs/llm_agent_cog.py:50-52 | the user gets an entry, an existing entry is kept, no other entry changes, and every entry stays the user's own id |
| LlmAgentCog.LlmAgentCog.constructor | cogs/llm_agent_cog.py:13-16 | no conversations yet |
| LlmAgentCog.LlmAgentCog.AgentChat | cogs/llm_agent_cog.py:38-62 | the conversation id passed is the stored one (none on a first chat); the store becomes `Recorded`; the replies are `AgentReplies` of the response |
| LlmAgentCog.LlmAgentCog.ClearConversation | cogs/llm_agent_cog.py:64-75 | clears exactly when the user had a conversation, and removes only that entry |
| LlmAgentCog.ConversationsAreNotShared | cogs/llm_agent_cog.py:44-52 | two users never share a conversation id |
| LlmAgentCog.ModelsDescription | cogs/llm_agent_cog.py:86-90 | "No models found" for an empty list, else the first 4000 characters inside a code fence; never over the embed's 4096 |
| AgentCog.PromptOf | cogs/agent_cog.py:20-24 | `split(" ", 1)`: no prompt exactly when there is no space; otherwise everything after the first space |
| AgentCog.PromptRoundTrip | cogs/agent_cog.py:20-24 | a command word, a space and any text give that text back as the prompt |
| AgentCog.Messages | cogs/agent_cog.py:27-48 | at least one message, each within 2000 characters, concatenating to the response; a short response goes whole |
| AgentCog.AgentGroup | cogs/agent_cog.py:15-34 | help exactly when there is no prompt; otherwise the messages carry the whole response |
| AgentCog.ConversationId | cogs/agent_cog.py:41 | `discord-` followed by the channel id |
| AgentCog.ChannelsHaveTheirOwnConversation | cogs/agent_cog.py:36-42 | different channels never share a conversation |
| AgentCog.AgentTask | cogs/agent_cog.py:50-64 | the description is the response cut to 4096 characters; the truncation footer appears exactly when something was cut |
| Bot.LogSeconds | bot.py:70 | three hours when unset, the configured number otherwise, and zero for a negative one |
| Bot.NamesOf | bot.py:71-75 | every non-blank piece is present stripped and lower-cased, every name comes from some non-blank piece, and every name is non-empty and lower case |
| Bot.DefaultLogChannels | bot.py:71-75 | unset, the channels are `manga-logs` and `logs` |
| Bot.ChannelsOfTwo | bot.py:71-75 | two lower-case names without blank ends, joined by a comma, give exactly those two channels |
| Bot.RemoveAll | bot.py:149 | `replace(pat, "")` never lengthens the text |
| Bot.NoOpeningKept | bot.py:149 | text without `<` is kept as it is |
| Bot.MentionRemoved | bot.py:149 | a leading `<@id>` is removed |
| Bot.BangMentionKept | bot.py:149 | the nickname form `<@!id>` is not removed |
| Bot.CleanMention | bot.py:149 | the cleaned text has no blank at either end |
| Bot.OnMessage | bot.py:129-158 | the bot's own messages are only scheduled for deletion, exactly in a log channel with a positive delay; other messages are processed, and the AI is asked exactly for a mention that is not a command, leaves non-empty text, and finds the AI enabled |
| Bot.BareMentionUnanswered | bot.py:149-151 | a message that is only `<@id>` gets no AI reply |
| Bot.BangMentionAnswered | bot.py:149-151 | a message that is only `<@!id>` is passed on whole |
| Bot.NonPositiveNeverDeletes | bot.py:133-137 | a configured delay of zero or less never deletes anything (the delay is read at line 70 of the same file) |
| Bot.ErrorReply | bot.py:160-171 | an unknown command is silent; the other errors are reported with the parameter, the member or the error text |

## Left out

- Discord, Telegram and HTTP calls (connecting, moving, muting, sending, embeds, views, reactions) are not performed: the model records which call is made, and its outcome is an input.
- The LLM and speech clients (`services/llm_agent_service.py`, the request bodies in `services/ai_service.py` and `app.py`) are not part of this model; their replies and failures are parameters.
- Audio I/O (FFmpeg, edge-tts, the speech recogniser, WAV writing, the opus patches) is left out; only the decisions around it are modelled.
- Concurrency and timing are left out: asyncio tasks, the polling loops, keep-alive, the 5-second enforcement cadence and `wait_for` timeouts. The save queue and its worker are modelled as sequential steps, so the window in which a save enqueued during a running save is de-duplicated after the worker read the state is not captured.
- The SQLite and Firestore stores and the backup directory copies are an abstract map of payloads and a list of snapshot names.
- Floating point: `time.time()` becomes integer milliseconds, and `sqrt` is avoided by comparing the sum of squared samples with `t * t * count`.
- Python's `lower()`, `upper()`, `strip()`, `\s` and `\d` are modelled on ASCII letters, ASCII whitespace (space, tab to carriage return and the separators `\x1c`-`\x1f`) and ASCII digits only; Unicode case mapping, Unicode spaces such as `\x85` and `\xa0` for `strip()`, and Unicode digits are not.
- VoiceHandler.HasTrigger: `\w` is exact on ASCII, and outside ASCII excludes the Latin-1 controls and symbols, General Punctuation, CJK Symbols and Punctuation and the Arabic comma, semicolon, question mark, percent and full stop; every other non-ASCII character, including punctuation in other blocks, is taken for a word character, so the wake word next to such a mark does not trigger in the model where Python's `\b` would.
- AuthJson.ParseInt: `int()` of a string accepts only a sign and ASCII digits; the `_` digit separators Python allows (`int("1_000")`) are refused here.
- AuthJson.StrOf: a JSON float has no value in the model, and `str()` of a list or object gives `""` here instead of Python's repr.
- AuthCog.Cog.WorkerStep: whether a store write raises is an input; a write that fails half-way is taken to leave the old record whole.
- AuthBackup.CreateBackupSnapshot: the copies themselves, a partly removed snapshot (the directory is kept or gone as a whole) and a `latest` that is a plain file are not modelled.
- The other double-encoded literals of cogs/auth_cog.py (its replies, labels and embeds) are display text and are not modelled.
- AuthSetupVerify.Below: the role hierarchy test is a plain position comparison; discord's special ordering of the `@everyone` role is not modelled.
- AiService.OpenRouterRetryNeverEnds: CPython's recursion limit, which ends the unbounded retry with a `RecursionError` that the request's `except Exception` turns into an "AI Error:" reply, is not modelled.
- SpeechService.SaveFails: a failed WAV write is assumed to leave no partial file behind.
- Environment variables arrive already read, as `Option` values; `int()` parsing of them is not modelled.
- Random draws (fun and troll commands, `random.sample`) are inputs.
- `math` evaluates with `eval`; only its character filter is modelled.
- `debug_keys` (cogs/admin_cog.py:337-352) is left out: it refers to `os`, which that file never imports, so it can only raise.
- `sync`, `voicediag`, the extension `setup` functions and the static help texts (`agenthelp`, `cogs/chat_cog.py`, the help cog's main menu text) are presentation only.
- `8ball`, `coinflip`, `howgay` and the AI-backed fun commands (an AI reply when enabled, else a canned line) are a plain random pick or a provider call, with nothing to state beyond it.
- `agent models` in cogs/agent_cog.py:66-71 only formats the service's list; it is not modelled.
- `dm`, `timeout` and `ban` in the admin cog are single API calls after the guards already modelled.
- `VoiceCog.keyword` and `require_keyword` are stored and shown but never consulted by the handler (cogs/voice_cog.py:20-21 against voice/handler.py:264); the model keeps them as plain fields.
- DNS patching, persistence symlinks and the health-check web server (main.py, app.py) are platform glue and are not part of this model.
- HelpCog.SortBy: proved sorted by the key and a permutation of its input; that entries with equal keys keep their order, as Python's stable `sorted` does, is not stated.

## Findings

| source | as written | input that shows it | evidently intended | confidence | as-written member | corrected member |
|---|---|---|---|---|---|---|
| voice/sink.py:64-66 | `write` reads `voice_handler.allowed_users`, which `VoiceHandler.__init__` (voice/handler.py:61-82) never sets | any non-empty frame while listening with owner-only off raises `AttributeError`, so nothing is ever buffered | an allow-list that is empty by default and admits everyone | not executed | VoiceSink.AdmissionAsWritten | VoiceSink.Admission |
| services/ai_service.py:239-247 | on a non-200 reply with the configured model, the call recurses with `FREE_MODELS[1]` | `OPENROUTER_MODEL` equal to `FREE_MODELS[1]` and a provider that keeps failing: each failure sends another request, without bound in the code; only CPython's recursion limit ends it, after several hundred requests, as an "AI Error: maximum recursion depth exceeded" reply | retry once with the other free model, then report the error | not executed | AiService.OpenRouterRetryNeverEnds | AiService.OpenRouterReply |
| services/ai_service.py:110-116, 287-292 | the Groq client is created only when Gemini's setup fails | Gemini and Groq keys both set, and Gemini returns an error: Groq is never asked | Gemini falls back to Groq when a Groq key exists | not executed | AiService.GeminiNeverReachesGroq | AiService.GeminiFallsBackToGroq |
| cogs/auth_cog.py:1404 | the default emoji literal is the UTF-8 bytes of U+2705 read back as Windows-1252, the three characters U+00E2 U+0153 U+2026 (the file is double-encoded throughout) | `!setupverify @Role` pairs the role with that text, which is not an emoji a reaction can carry; `!setupverify <@&1> ✅ <@&2>` gives two pairs where the intended default makes the typed check mark a duplicate | the check mark U+2705 | not executed | AuthSetupVerify.DefaultEmojiAsWritten | AuthSetupVerify.DefaultEmojiIsCheckMark |
| cogs/auth_cog.py:1180 | a migrated option without an emoji gets the same double-encoded text | a legacy option `{"role_id": 5}`: the migrated option carries U+00E2 U+0153 U+2026, and a check-mark reaction on the verify message matches no option | the check mark U+2705 | not executed | AuthMigrate.DefaultOptionAsWritten | AuthMigrate.DefaultOptionIsCheckMark |
| cogs/auth_cog.py:2154-2168 | after `remove_roles`, the remaining mapped roles are read from the same, stale `member.roles` | a member verified through one mapped role removes that reaction: when the cached member has not yet been updated by the gateway event, the list still shows the role and verification is not cleared; whether it is updated in time is a race | clear verification when no mapped role remains besides the removed one | not executed | AuthCog.StaleRolesNeverClearVerification | AuthCog.StillVerifiedMeaning |
