# Retodia daily challenge pipeline — a Dafny model

Retodia sends each active user a daily "reto" (challenge). The pipeline has two halves.

- **The daily prompt.** For every user profile it renders the first prompt template with the user's data. It asks a text model for a *brief* and stores a new, blank `retos_diarios` record holding that brief.
- **The record trigger.** When such a record arrives, three stages run on the user's data plus the brief:
  - the daily challenge text (`retodia`);
  - an image prompt, the image, and its upload to Cloud Storage (`retoimagen`);
  - a podcast script, its audio, and the audio upload (`retopodcast`).

  Each stage writes its field when it yields something non-empty. The run ends with a summary of the three outcomes.

This project models the core of that pipeline in Dafny and proves its behaviour. The core consists of:

- the two handlers;
- the Firestore service, as a class over the three collections;
- template rendering in the Vertex AI service;
- image generation with its translation fallback;
- bucket-name normalisation and upload in the storage service;
- the Gemini text-to-speech service's MIME parser, PCM-to-WAV header and stream collection.

Every external service is a parameter of the model:

- the text, image and audio models;
- the blob store;
- the clock;
- the MIME extension guesser.

Their failures are values of the `Outcome`/`Result` datatypes.

Modules, one per file:

- `Wrappers` (`wrappers.dfy`), `Documents` (Firestore values and documents), `ByteSeq` and `Strings`. These hold the Python string operations the code relies on: `strip`, `lower`, `find`/`split`, `replace`, `join` and `int()`.
- `Storage` (`services/storage_service.py`)
- `Imagen` (`services/imagen_service.py`)
- `GeminiTTS` (`services/tts/gemini_tts_service.py`)
- `FirestoreService` (`services/firestore_service.py`)
- `VertexAI` (`services/vertex_ai_service.py`)
- `FirestoreTriggers` (`handlers/firestore_triggers.py`)
- `DailyPrompt` (`handlers/prompt1_handler.py`)

The Firestore service mutates its collections in place, so it is a class, `FirestoreService.RecordStore`:

- `profiles` holds the read-only `users`, `infouser` and `avances` collections;
- `retos` is the record collection, a map from record id to document;
- `nextId` is the next auto-generated id;
- `down` is the set of collections whose calls raise.

The handlers are methods on that store. The loops of the source stay loops:

- the batches of `process_all_users`;
- the stream loop of `synthesize_dialog`;
- the MIME parameter loop.

Each of these is proved against a specification function.

## Model

| member | source | states |
|---|---|---|
| Strings.TrimLeft | services/storage_service.py:12 | the result is a suffix of the input with no leading whitespace, and everything dropped is whitespace (Python's `str.isspace` set) |
| Strings.TrimRight | services/storage_service.py:12 | the result is a prefix with no trailing whitespace, and everything dropped is whitespace |
| Strings.StripShape | services/storage_service.py:12 | `strip()` returns the contiguous slice of the input between a whitespace-only prefix and a whitespace-only suffix, and starts and ends with non-whitespace |
| Strings.StripIdempotent | services/vertex_ai_service.py:90 | stripping an already stripped text changes nothing |
| Strings.StripUnpadded | services/storage_service.py:12 | a text without surrounding whitespace is returned unchanged |
| Strings.LowerFolds | services/tts/gemini_tts_service.py:51 | after `lower()` no ASCII capital is left: each capital became its lower-case letter 32 code points up, every other character is kept, and lowering twice is the same as lowering once |
| Strings.FindFrom | services/storage_service.py:16-17 | the first occurrence at or after a position, or none at all from there |
| Strings.Find | services/storage_service.py:16-17 | `find` gives the first occurrence of the pattern, and none means the pattern occurs nowhere |
| Strings.Before | services/storage_service.py:17 | `split(p, 1)[0]`: when the separator occurs, the text is the part before it, the separator and the rest, and the part before contains no separator; otherwise the whole text |
| Strings.ReplaceAbsent | services/vertex_ai_service.py:54-73 | `replace` changes nothing in a text where the pattern cannot start |
| Strings.ReplaceSkipsPrefix | services/vertex_ai_service.py:54-73 | a prefix where the pattern cannot start passes through `replace` untouched |
| Strings.Split | services/tts/gemini_tts_service.py:50 | `split(sep)` yields at least one part, and no part contains the separator |
| Strings.JoinSplit | services/tts/gemini_tts_service.py:50 | joining the parts of `split(sep)` with `sep` gives back the original text |
| Strings.ParseDigits | services/tts/gemini_tts_service.py:54 | `int()` of a non-empty run of ASCII digits is its decimal value |
| Strings.ParseDecimal | services/vertex_ai_service.py:68 | `int()` reads back the decimal rendering of any natural number |
| Strings.DecimalValue | services/vertex_ai_service.py:68 | the decimal rendering of a number has that number as its digit value |
| Storage.NormalizeMissing | services/storage_service.py:12 | a missing bucket setting normalises to the empty name |
| Storage.NormalizedHasNoScheme | services/storage_service.py:11-18 | whatever the setting, the normalised name contains no `://` |
| Storage.NormalizePlain | services/storage_service.py:12-18 | a setting without a scheme is only stripped |
| Storage.SplitAtFirst | services/storage_service.py:16-17 | `split(p, 1)` cuts at the first occurrence, so the text before it and the text after it are recovered |
| Storage.NormalizeGsBucket | services/storage_service.py:13-14 | `gs://<bucket>` normalises to the bucket name |
| Storage.NormalizeWebAddress | services/storage_service.py:16-17 | `https://<host>/<path>` normalises to the host |
| Storage.WebHost | services/storage_service.py:17 | the host is the text between the scheme and the first `/` after it |
| Storage.NormalizeKeepsGsPath | services/storage_service.py:13-18 | `gs://<bucket>/<path>` keeps its object path: only the scheme is removed |
| Storage.UploadBytes | services/storage_service.py:27-30 | the upload succeeds exactly when the blob store accepts that write, and then returns the object's `gs://` address |
| Storage.UriRoundTrip | services/storage_service.py:30 | the returned address starts with `gs://`, and the bucket and the object path can be read back from it |
| Imagen.ExtractContract | services/imagen_service.py:36-57 | no images gives "no images"; otherwise only the first image counts. `image_bytes` is taken when non-empty, else `_image_bytes` when present, else a converter's bytes; otherwise the "cannot extract" error |
| Imagen.GenerateContract | services/imagen_service.py:60-108 | the prompt goes to the model unchanged. An empty or missing answer gives "no results" and nothing is stored. A model error propagates. Bytes are stored as `image/<format>` exactly when they could be extracted, at the explicit output path when one is given and non-empty and at `retodia/images/<user>.<format>` otherwise. The call succeeds exactly when the store accepts them, with the object's address |
| Imagen.GenerateWithFallback | services/imagen_service.py:110-129 | one attempt, or two when the first failed |
| Imagen.FallbackContract | services/imagen_service.py:110-129 | the Spanish prompt goes first and the English one only after a failure. Both attempts target the same PNG object path. The fallback succeeds exactly when some attempt does |
| GeminiTTS.ClassifyAll | services/tts/gemini_tts_service.py:50-51 | one parameter reading per `;`-separated part |
| GeminiTTS.ParseAudioMime | services/tts/gemini_tts_service.py:47-62 | the parsed parameters are those of the MIME type's parts, applied left to right from the defaults |
| GeminiTTS.ReadParts | services/tts/gemini_tts_service.py:50-61 | the loop over the parts computes the left-to-right fold of their parameters |
| GeminiTTS.DefaultsWithoutParameters | services/tts/gemini_tts_service.py:48-49 | without a parsable rate or `audio/lN` part, the values are 16 bits at 24000 Hz |
| GeminiTTS.MissingMime | services/tts/gemini_tts_service.py:50 | a missing MIME type yields the defaults |
| GeminiTTS.LastParsedWins | services/tts/gemini_tts_service.py:52-61 | the rate is that of the last parsable `rate=` part and the width that of the last parsable `audio/l` part; an unparsable number leaves the earlier value |
| GeminiTTS.Le16 | services/tts/gemini_tts_service.py:38-39 | `<H` packs into two bytes |
| GeminiTTS.Le32 | services/tts/gemini_tts_service.py:38-39 | `<I` packs into four bytes |
| GeminiTTS.Le16RoundTrip | services/tts/gemini_tts_service.py:38-39 | reading the two little-endian bytes back gives the packed number |
| GeminiTTS.Le32RoundTrip | services/tts/gemini_tts_service.py:38-39 | reading the four little-endian bytes back gives the packed number |
| GeminiTTS.EncodeHeader | services/tts/gemini_tts_service.py:38-44 | the packed header is 44 bytes |
| GeminiTTS.RiffFields | services/tts/gemini_tts_service.py:40 | `RIFF` sits at offset 0, the chunk size at 4 and `WAVE` at 8 |
| GeminiTTS.FmtAt | services/tts/gemini_tts_service.py:41-42 | the format block starts at offset 12 |
| GeminiTTS.FmtWideFields | services/tts/gemini_tts_service.py:41-42 | `fmt `, the block size, the rate and the byte rate are at their offsets in the format block |
| GeminiTTS.FmtNarrowFields | services/tts/gemini_tts_service.py:41-42 | the format, channels, block alignment and sample width are at their offsets |
| GeminiTTS.DataFields | services/tts/gemini_tts_service.py:43 | `data` and the data size are at offsets 36 and 40 |
| GeminiTTS.HeaderRoundTrip | services/tts/gemini_tts_service.py:38-45 | the WAV header decodes back to the fields it was packed from, whatever audio follows it |
| GeminiTTS.EffectiveParams | services/tts/gemini_tts_service.py:28-30 | `or 16` / `or 24000`: a parsed 0 falls back to 16 bits or 24000 Hz, any other parsed value is used as is, so neither the width nor the rate used is zero |
| GeminiTTS.EffectiveIsLastParsed | services/tts/gemini_tts_service.py:27-30 | the width used is the last `audio/lN` number that parsed and the rate the last `rate=N` number that parsed, with 16 bits or 24000 Hz when there is none or it is 0 |
| GeminiTTS.DefaultWav | services/tts/gemini_tts_service.py:26-45 | a MIME type such as `audio/pcm` without a parsable rate or width converts to mono 16-bit PCM at 24000 Hz: 44 header bytes that decode to that header, then the audio unchanged; packing fails only when the audio is too long for the size fields |
| GeminiTTS.WavContract | services/tts/gemini_tts_service.py:26-45 | packing succeeds exactly when every field fits its `struct` format, and fails otherwise with the packing error. On success the file is 44 header bytes followed by the audio unchanged. The header decodes to mono PCM with chunk size `36 + n`, block alignment `bits // 8` and byte rate `rate * (bits // 8)` |
| GeminiTTS.AudioOf | services/tts/gemini_tts_service.py:126-134 | a chunk contributes audio only from the first part of its first candidate, and only non-empty bytes |
| GeminiTTS.Pieces | services/tts/gemini_tts_service.py:118-137 | every collected piece of audio is non-empty |
| GeminiTTS.LastMime | services/tts/gemini_tts_service.py:133 | the final MIME type, when there is one, is non-empty |
| GeminiTTS.CollectAudio | services/tts/gemini_tts_service.py:118-137 | the loop collects the stream's audio pieces in order, together with the last MIME type that came with audio |
| GeminiTTS.SynthesizeDialog | services/tts/gemini_tts_service.py:139-154 | without audio it fails with "no audio". Otherwise the file is `<basename><ext>` holding the joined audio when the MIME type has a known extension. Otherwise it is `<basename>.wav` holding the joined audio converted to WAV (with `audio/L16;rate=24000` when there is no MIME type) |
| GeminiTTS.PiecesAppend | services/tts/gemini_tts_service.py:121-134 | the audio of a stream split in two is the audio of the first half followed by that of the second |
| GeminiTTS.SkippedChunk | services/tts/gemini_tts_service.py:126-129 | a chunk without audio changes neither the audio nor the final MIME type |
| GeminiTTS.LastMimeAppend | services/tts/gemini_tts_service.py:133 | a later MIME type replaces an earlier one; chunks without one keep it |
| GeminiTTS.ConcatEmpty | services/tts/gemini_tts_service.py:139-142 | the joined audio is empty exactly when no piece arrived, so the "no audio" check is the same as an empty result |
| FirestoreService.UserProgress | services/firestore_service.py:65-70 | exactly the user's progress entries that carry a timestamp |
| FirestoreService.Insert | services/firestore_service.py:71-72 | insertion adds the one entry and loses none |
| FirestoreService.InsertKeepsOrder | services/firestore_service.py:71-72 | inserting into a newest-first list keeps it newest-first |
| FirestoreService.SortNewest | services/firestore_service.py:71-72 | sorting is a permutation |
| FirestoreService.SortNewestOrdered | services/firestore_service.py:71-72 | the sorted list is newest first |
| FirestoreService.Newest | services/firestore_service.py:71-73 | `limit(5)` keeps five entries, or all when there are fewer |
| FirestoreService.NewestFromInput | services/firestore_service.py:71-73 | the kept entries come from the input |
| FirestoreService.NewestOrdered | services/firestore_service.py:71-73 | the kept entries are newest first |
| FirestoreService.NewestDominates | services/firestore_service.py:71-73 | no dropped entry is newer than a kept one |
| FirestoreService.ContextEmptyIffNoUser | services/firestore_service.py:52-57 | the user data is empty exactly when there is no profile |
| FirestoreService.ContextMerge | services/firestore_service.py:52-79 | the profile fields are overlaid by the `infouser` fields. `avances` is the recent progress texts and `userid` the id, whatever either document says |
| FirestoreService.ProgressIsNewestOfUser | services/firestore_service.py:65-76 | at most five progress entries, all the user's, newest first. No dropped timestamped entry of the user is newer than a kept one. There are five whenever the user has five or more |
| FirestoreService.NewRecordIsBlank | services/firestore_service.py:114-128 | a new record holds the user id and the brief, and its three stage fields are empty, so it is incomplete |
| FirestoreService.IncompleteIff | services/firestore_service.py:169-189 | a record is incomplete exactly when one of its three stage fields is missing or empty |
| FirestoreService.RecordStore.constructor | services/firestore_service.py:43-193 | the store starts with the given profiles and no records |
| FirestoreService.RecordStore.GetUserData | services/firestore_service.py:43-86 | the result is the merged user data, or the failure of the collection that is down |
| FirestoreService.RecordStore.ProgressTexts | services/firestore_service.py:74-76 | the loop collects the `texto` of each entry in order |
| FirestoreService.RecordStore.ListActiveUsers | services/firestore_service.py:88-106 | fails exactly when the users collection is down. Otherwise it lists every profile id exactly once |
| FirestoreService.RecordStore.CreateRecord | services/firestore_service.py:108-132 | with the record collection up, a new blank record is stored under a fresh id, which is returned. Otherwise it fails and nothing changes |
| FirestoreService.RecordStore.UpdateRecord | services/firestore_service.py:134-145 | succeeds exactly when the collection is up and the record exists. The record's fields are then overwritten by the updates and nothing else changes |
| FirestoreService.RecordStore.GetRecord | services/firestore_service.py:147-161 | fails exactly when the collection is down; otherwise it returns the record if it exists |
| FirestoreService.RecordStore.LatestIncompleteRecord | services/firestore_service.py:163-193 | fails exactly when the collection is down. A result is the user's latest record with a brief, and it is incomplete. None means either that no record of the user has a brief, or that the latest one with a brief is already complete |
| VertexAI.Pad | services/vertex_ai_service.py:68 | a zero-padded number has at least the requested width and only digits |
| VertexAI.ParsePad | services/vertex_ai_service.py:68 | a zero-padded number reads back as that number |
| VertexAI.IsoDateFields | services/vertex_ai_service.py:67-68 | `%Y-%m-%d` is ten characters, and its year, month and day read back as the date's |
| VertexAI.ApplyAllNoSlots | services/vertex_ai_service.py:54-73 | a template without `{` comes out of the replacement chain unchanged |
| VertexAI.SlotUntouched | services/vertex_ai_service.py:54-73 | replacing one placeholder leaves a different placeholder alone |
| VertexAI.FillSlot | services/vertex_ai_service.py:54-73 | in a template with one placeholder, the placeholder is replaced by the first value bound to its name, or stays as it is |
| VertexAI.Texts | services/vertex_ai_service.py:62-63 | the progress entries join only when all are texts, and then in order |
| VertexAI.LookupFirst | services/vertex_ai_service.py:54-73 | the first binding of a name is the one that applies |
| VertexAI.LookupNone | services/vertex_ai_service.py:54-73 | an unbound name keeps its placeholder |
| VertexAI.BindingAt | services/vertex_ai_service.py:54-73 | the chain binds the placeholders in source order, each to its value |
| VertexAI.ProfileSlots | services/vertex_ai_service.py:54-56 | `{nombre}` is the name or "Usuario"; `{d1}` and `{d2}` are the answers or empty |
| VertexAI.MoreProfileSlots | services/vertex_ai_service.py:57-59 | `{d3}`, `{d4}` and `{userid}` are the stored values or empty |
| VertexAI.DerivedSlots | services/vertex_ai_service.py:62-73 | `{avances}` is the first three progress texts joined by spaces, or "No hay avances registrados" when there are none. `{fecha}` is today's ISO date. `{brief}` is replaced only when the data has a brief |
| VertexAI.UnknownSlot | services/vertex_ai_service.py:54-73 | any other placeholder is left in the prompt |
| VertexAI.RenderFallback | services/vertex_ai_service.py:77-79 | the replacement raises exactly when a replaced field is present but not text, or the progress is a non-zero number, or one of its first three items is not text (a text progress is joined character by character, and an empty, zero or missing one gives "No hay avances registrados"). Then the template is returned unchanged |
| VertexAI.RenderSlot | services/vertex_ai_service.py:50-75 | one placeholder in an otherwise plain template renders to its bound value |
| VertexAI.RenderTemplate | services/vertex_ai_service.py:50-75 | a template with any number of placeholders, in any order and with repeats, renders with each placeholder replaced by the first value bound to its name (or left as it is when unbound) and the plain text between them kept, when neither the plain text nor the values hold `{` |
| VertexAI.ApplyAllTemplate | services/vertex_ai_service.py:54-73 | the chained `replace` calls fill every placeholder of a template at once, each with the first binding of its name |
| VertexAI.ReplaceInterleave | services/vertex_ai_service.py:54-73 | one `replace` of a placeholder rewrites exactly the occurrences of that placeholder among the template's placeholders and nothing in the text between them |
| VertexAI.ChainRewritesEarlierValues | services/vertex_ai_service.py:54-55 | the replacements are chained, so a name equal to `{d1}` is itself rewritten into the `d1` answer |
| VertexAI.GenerateContract | services/vertex_ai_service.py:81-152 | the model gets the rendered template. Its stripped answer is returned, or "Error generating <kind>: <message>" when it raises. The result is empty exactly when the model gave no text or only whitespace |
| FirestoreTriggers.Field | handlers/firestore_triggers.py:29-32 | each stage writes one of the three stage fields |
| FirestoreTriggers.FieldsDisjoint | handlers/firestore_triggers.py:29-32 | different stages write different fields |
| FirestoreTriggers.StageValue | handlers/firestore_triggers.py:22-129 | a stage that yields a value yields a non-empty one |
| FirestoreTriggers.ImagenSteps | handlers/firestore_triggers.py:43-85 | the image stage yields a value exactly when the prompt, the image bytes and the upload all succeed non-empty. The value is the upload address |
| FirestoreTriggers.PodcastSteps | handlers/firestore_triggers.py:87-129 | the podcast stage yields a value exactly when the script, the audio bytes and the upload all succeed non-empty. The value is the upload address |
| FirestoreTriggers.ErrorTextIsWritten | handlers/firestore_triggers.py:27-34 | when the text model raises, the "Error generating reto dia" message is non-empty and is written as the challenge |
| FirestoreTriggers.AfterStagesFields | handlers/firestore_triggers.py:155-161 | after the three stages every other field is unchanged. A stage field holds the stage's value when the stage yielded one, and is untouched otherwise |
| FirestoreTriggers.WriteField | handlers/firestore_triggers.py:29-34 | the field is written exactly when there is a value, the collection is up and the record exists; otherwise nothing changes |
| FirestoreTriggers.RunStage | handlers/firestore_triggers.py:22-129 | a stage succeeds exactly when it yields a value and the write goes through; it then sets its one field, and otherwise changes nothing |
| FirestoreTriggers.ProcessRetoDia | handlers/firestore_triggers.py:22-41 | true exactly when the challenge text is non-empty and written to `retodia`; false leaves the records unchanged |
| FirestoreTriggers.ProcessImagen | handlers/firestore_triggers.py:43-85 | true exactly when the image address is produced and written to `retoimagen`; false leaves the records unchanged |
| FirestoreTriggers.ProcessPodcast | handlers/firestore_triggers.py:87-129 | true exactly when the audio address is produced and written to `retopodcast`; false leaves the records unchanged |
| FirestoreTriggers.CountTrue | handlers/firestore_triggers.py:164-166 | the successes never exceed the tasks |
| FirestoreTriggers.CountTrueZero | handlers/firestore_triggers.py:164-169 | no successes exactly when every task failed, all successes exactly when none did |
| FirestoreTriggers.CountThree | handlers/firestore_triggers.py:166 | the count of three results is the sum of their indicators |
| FirestoreTriggers.Summarize | handlers/firestore_triggers.py:164-175 | three tasks: successful plus failed is three, and success means at least one task succeeded. Each flag is its task's result |
| FirestoreTriggers.StageContext | handlers/firestore_triggers.py:152 | the stages see the user data plus the record's brief, or "" when the record has none |
| FirestoreTriggers.WriteStages | handlers/firestore_triggers.py:155-161 | each stage reports whether it had a value, and the record is patched with the three values in order |
| FirestoreTriggers.ProcessAllPrompts | handlers/firestore_triggers.py:131-182 | the run fails without touching the records in these cases: the user lookup fails, the user is missing, the record collection is down, or the record is missing or empty. Otherwise (the user and a non-empty record exist and both collections are up) it always completes, with the summary of the three stages, and the record gains exactly the stage fields that had values |
| DailyPrompt.DailyBrief | handlers/prompt1_handler.py:17-37 | a brief exists only for an existing user with the users collection up, and is never empty |
| DailyPrompt.UnknownUserFails | handlers/prompt1_handler.py:26-30 | a user without a profile never gets a record |
| DailyPrompt.BriefIsModelAnswer | handlers/prompt1_handler.py:17-43 | with the data readable and the model answering, the brief exists exactly when the stripped answer is non-empty, and is that answer |
| DailyPrompt.ProcessSingleUser | handlers/prompt1_handler.py:17-47 | true exactly when a brief exists and the record collection is up. A new blank record with the brief, today's date and the current time is then stored under the next id. Otherwise nothing changes |
| DailyPrompt.Waves | handlers/prompt1_handler.py:71-77 | every wave holds at least one and at most `batch_size` users |
| DailyPrompt.WavesPartition | handlers/prompt1_handler.py:71-77 | the waves, one after another, are exactly the users in order |
| DailyPrompt.WaveCount | handlers/prompt1_handler.py:71 | there are `ceil(n / batch_size)` waves |
| DailyPrompt.WavesFull | handlers/prompt1_handler.py:72 | every wave but the last is full |
| DailyPrompt.WaveAt | handlers/prompt1_handler.py:72 | wave `w` is the users from `w * batch_size` up to the next multiple or the end |
| DailyPrompt.RoundsCeiling | handlers/prompt1_handler.py:71 | `range(0, n, b)` visits `ceil(n / b)` offsets |
| DailyPrompt.SuccessesStep | handlers/prompt1_handler.py:80-87 | counting one more user adds one success exactly when that user succeeds |
| DailyPrompt.NoSuccessWhileRecordsDown | handlers/prompt1_handler.py:40-47 | with the record collection down, no user succeeds |
| DailyPrompt.SuccessesAsSet | handlers/prompt1_handler.py:51-87 | over a listing of the users collection, the successes counted are the number of distinct users who succeed, whatever the listing order |
| DailyPrompt.CountMadeAsSet | handlers/prompt1_handler.py:80-87 | over a list without repeats, the users counted as successful are exactly the set of listed users who succeed |
| DailyPrompt.NewRecordsKeys | handlers/prompt1_handler.py:40-47 | the records created by a pass take the consecutive ids from the first free id on, one per success, none skipped |
| DailyPrompt.NewRecordsAt | handlers/prompt1_handler.py:40-47 | the k-th user who succeeds has their own record under the first free id plus k, holding their brief, today's date and the current time |
| DailyPrompt.CreatedAt | handlers/prompt1_handler.py:80-87 | a successful user's record sits under the id that follows the records of the successful users before them |
| DailyPrompt.ProcessAllUsers | handlers/prompt1_handler.py:49-105 | it raises the users error, and leaves the records alone, when the list cannot be read. Otherwise the listing holds every user once and the run always completes, except that a zero batch size with users raises `range`'s error. No users gives zero counts and no records. A negative batch size reports every user in the total, with none successful or failed, and adds no records. Otherwise the total is the number of users, successful is the number of distinct users who succeed, successful plus failed is the total, there is one pause fewer than there are waves (`ceil(total / batch) - 1`), and the records are the old ones plus exactly one new record per successful user, holding their brief, under consecutive new ids in listing order |
| DailyPrompt.RunWaves | handlers/prompt1_handler.py:71-91 | the waves, which partition the users in order, count as successful exactly the users who succeed. They pause between consecutive waves only, so `ceil(n / batch) - 1` times. The records become the old ones plus exactly the new records of the successful users, under consecutive ids from the first free one |
| DailyPrompt.RunWave | handlers/prompt1_handler.py:73-87 | after a wave, the counts and the records are those of every user up to the wave's end: successful counts the users who succeed, and each of them has added exactly their own record under the next id |
| DailyPrompt.CountedUser | handlers/prompt1_handler.py:80-87 | one user's result is whether that user succeeds. On success exactly their new record is added under the next id and the next id moves by one; otherwise the records and the next id are unchanged |
| DailyPrompt.HandleDailyPrompt | handlers/prompt1_handler.py:108-132 | with a non-empty user id, only that user is processed: the run reports whether they succeeded, adds exactly their record under the next id when they did, and changes nothing when they did not. Without one, the run reports the pass over all users, or its error, with every state clause of that pass |

## Left out

- **HTTP and logging.**
  - `app.py`, the web endpoints and the webhook plumbing are not part of this model. The handlers are modelled from their entry points on.
  - Logging is not modelled.
- **Concurrency.**
  - `asyncio.gather` and the awaits run sequentially in the model.
  - The `asyncio.sleep(2)` between waves is counted (`pauses`), not executed.
  - A wave's users are processed in list order, so new record ids follow that order.
  - The three stages of a record each write their own field, so their order does not change the record.
- **Float formatting.** The summary's `success_rate` string (a float rendered as a percentage) is not modelled. The counts it comes from are.
- **External services.** The Vertex AI, Imagen and Gemini SDKs and the Cloud Storage client are function parameters. Their exceptions are the `Fail`/`Failure` values. Their retries, timeouts and authentication are not modelled.
- **Templates, clock and files.**
  - Prompt template files are loaded elsewhere, so templates are parameters, and a missing file's placeholder text is not modelled.
  - The clock (`datetime.now()`, `SERVER_TIMESTAMP`) is a parameter: the `Clock` value and the record's `now`.
  - Firestore's generated document ids are a counter, `nextId`.
  - Writing the audio file to disk is not modelled. `SynthesizeDialog` returns the file name and the bytes.
- **Extension guessing.** `mimetypes.guess_extension` is the `ExtensionGuess` parameter.
- **Other services.** `services/tts_service.py`, the schemas and the settings module are not part of this model.
  - `MAX_CONCURRENT_USERS` is the `batch` parameter of `ProcessAllUsers`.
  - The collection names and `PROMPT*_FILE` settings are fixed in the model.
- **Call sites.** The trigger handler calls `generate_image_with_translation`, `upload_image` and `upload_podcast`, which do not exist in the image and storage services, and `generate_podcast_audio` of `services/tts_service.py`. The model composes the stages through abstract `Providers` functions (image bytes then upload, audio bytes then upload) rather than through those mismatched calls.
- VertexAI.IsoDate: `ValidDate` admits the years 1 to 9999, as Python's `date` does, and the year is zero-padded to four digits as `%Y` does. Years outside that range are not modelled, and the day is bounded by 31 whatever the month's length.
- Strings.Lower: only ASCII letters are lower-cased. Python's full Unicode case mapping is not modelled.
- FirestoreService.SortNewest: ties between equal timestamps may be ordered differently from Firestore's tie order.
- VertexAI.FillSlot: this lemma covers one placeholder; templates with many placeholders are covered by `RenderTemplate`. Both are stated for plain text and data values that contain no `{`. A value that itself contains a placeholder is covered only by `ChainRewritesEarlierValues`.
- **Error strings.** `Generate` returns "Error generating …" when a text model raises. That string is non-empty and passes every emptiness guard, as in the source: the error text is written as the challenge (`ErrorTextIsWritten`). This is how the source behaves and is modelled as such.
- GeminiTTS.WavContract: a field that does not fit gives one fixed packing message (`PackError`) whatever the field; the `struct` module's own message naming the format is not modelled.
- Imagen.ExtractContract: a non-callable `to_bytes` attribute is modelled as absent; a converter that raises is not modelled.
- Storage.NormalizeKeepsGsPath: `gs://bucket/path` keeps its path in the bucket name. The source does the same, so this is stated rather than corrected.
- DailyPrompt.ProcessAllUsers:
  - A negative batch size gives an empty `range` in the source, so the users are listed but none is processed; the model's contract states exactly that.
