# Interior-design assistant: a Dafny model of its core

The application takes a photo of a room, asks a generative model for three
interior-design concepts, synthesises an image for each concept and finds
online stores for every furniture item. Around that it offers colour-palette
suggestions, a perspective viewer that fetches the room from other camera
angles, an image editor driven by a text prompt and a support chat.

This project models the logic the application itself carries out, not the
models it calls:

- `wrappers.dfy` (module `Wrappers`). `Option`. `Reply`, the settled
  outcome of an awaited call: a value, or a thrown `Error` or other value.
  `CaughtMessage`, the message every catch block shows.
- `types.dfy` (module `Types`). The records and enumerations of `types.ts`.
- `text.dfy` (module `Text`). The JavaScript string primitives the code
  relies on:
  - the `\s` whitespace class and `trim`;
  - `indexOf`, and `replace` with a string pattern;
  - `split(sep)[0]`;
  - first-letter capitalisation.
- `store_links.dfy` (module `StoreLinks`). The store-link extraction of
  `findStoresForItem`:
  - the global scan of the URL regular expression over the answer text,
    proved sound (every match is a maximal URL token), ordered and
    complete;
  - the grounding-citation URIs;
  - deduplication in discovery order;
  - the cut to three;
  - store naming from the host.
  The loops of the source are methods proved against these functions.
- `gemini_service.dfy` (module `GeminiService`). The service layer:
  - the response checks of image synthesis and image editing;
  - the perspective prompt;
  - the all-or-nothing assembly of `generateDesigns` from its nested
    `Promise.all`s;
  - the chat session created once and reused (`ChatService`).
- `app.dfy` (module `App`). The wizard of `App.tsx`:
  - every handler as a record update on `AppState`;
  - the class `AppStore` holding the state cell, whose handler methods
    keep the invariant `AppValid`: an image exactly outside the upload
    step, and a preview URL exactly with an image.
- `perspective_viewer.dfy` (module `PerspectiveViewer`). The perspective
  cache of `ThreeDViewerModal.tsx`: the fetch guard, write-once slots, the
  per-angle error message and the prefetch on open.
- `chatbot.dfy` (module `Chatbot`). The transcript of `Chatbot.tsx`: a
  greeting followed by alternating non-blank user messages and bot
  answers, an invariant every send keeps.
- `image_editor.dfy` (module `ImageEditor`). The submit of
  `ImageEditorModal.tsx` and its hand-off to the application's
  `handleUpdateEditedImage`.

Every remote call is an oracle, a field of the datatype
`GeminiService.Remote`. It stands for whatever the remote model answers,
including a thrown error. The URL parser is one too: `hostname`, which is
`None` when `new URL` throws. The fresh identifiers of `crypto.randomUUID`
and the object URL of `URL.createObjectURL` are parameters of the
operations that use them.

Some behaviour of the code that a reader might not expect, and that the
model keeps:

- the store name removes the first `"www."` found anywhere in the host,
  not only a leading one;
- an upload does not release the previous preview URL; only start-over
  does;
- the handlers do not check the current step, so nothing keeps the step
  from moving backwards; what the handlers do keep is the invariant
  `AppValid`;
- the top-view angle description is kept as the source stores it, with the
  "á" of "pájaro" read back as two other characters.

## Model

| member | source | states |
|---|---|---|
| Wrappers.CaughtMessage | App.tsx:69 | an `Error` shows its own message; any other thrown value shows the fallback |
| Types.FurnitureTypeValue | types.ts:27-32 | each furniture type is one of the four enum strings |
| Types.FurnitureTypeValueInjective | types.ts:27-32 | distinct furniture types have distinct string values |
| Types.StepOrdinal | types.ts:40-45 | the steps are numbered in declaration order: upload 0, preferences 1, generating 2, results 3, each number for one step only |
| Text.IsJsSpace | components/Chatbot.tsx:34 | the characters `\s` matches and `trim` removes, the ECMAScript white space and line terminators; what is said of them is in `Text.SkipSpaces`, `Text.SkipSpacesBack` and `Text.TrimEmptyIffBlank` |
| Text.SkipSpaces | components/Chatbot.tsx:34 | the first non-whitespace index at or after `i`; everything skipped is whitespace |
| Text.SkipSpacesBack | components/Chatbot.tsx:34 | the end of the text once trailing whitespace is dropped; everything dropped is whitespace |
| Text.TrimStart | components/Chatbot.tsx:34 | the text from the first non-whitespace character on; its property is `Text.SkipSpaces` |
| Text.TrimEnd | components/Chatbot.tsx:34 | the text up to the last non-whitespace character; its property is `Text.SkipSpacesBack` |
| Text.Trim | components/Chatbot.tsx:34 | `s.trim()`; its property is `Text.TrimEmptyIffBlank` |
| Text.TrimEmptyIffBlank | components/Chatbot.tsx:34 | `trim` gives the empty string exactly when every character is whitespace |
| Text.IndexOf | services/geminiService.ts:156 | the leftmost occurrence of the pattern at or after `i`, or none at any position |
| Text.ReplaceFirst | services/geminiService.ts:156 | `replace('www.', '')` with a string pattern replaces the first occurrence only; its properties are `StoreLinks.StoreNameWithoutWww` and `StoreLinks.StoreNameLeadingWww` |
| Text.FindChar | services/geminiService.ts:158 | the first index of the character at or after `i`, or the length |
| Text.BeforeFirst | services/geminiService.ts:158 | `split(sep)[0]` is the prefix without `sep` that is the whole string or ends at the first `sep` |
| Text.BeforeFirstUnique | services/geminiService.ts:158 | those three properties determine `split(sep)[0]` |
| Text.BeforeFirstOfLabel | services/geminiService.ts:158 | the text before the first separator is the label in front of it |
| Text.UpperAscii | services/geminiService.ts:158 | lower-case ASCII letters become upper case; every other character is unchanged |
| Text.Capitalize | services/geminiService.ts:158 | the first character upper-cased, the rest unchanged, the length kept |
| StoreLinks.IsUrlChar | services/geminiService.ts:138 | the class `[^\s)]`: any character but whitespace and `)`; its properties are `StoreLinks.RunEnd` and `StoreLinks.RunEndReaches` |
| StoreLinks.IsUrlToken | services/geminiService.ts:138 | a string the expression matches whole: `https://` or `http://`, then at least one character, and only URL characters; its properties are `StoreLinks.MatchLengthIsToken`, `StoreLinks.TokenMatchLength` and `StoreLinks.UrlMatchesComplete` |
| StoreLinks.SchemeLength | services/geminiService.ts:138 | the length `https?:\/\/` matches at a position; its property is `StoreLinks.SchemeLengthIsPrefix` |
| StoreLinks.RunEnd | services/geminiService.ts:138 | the greedy `[^\s)]+` stops at the first whitespace or `)`, or at the end |
| StoreLinks.SchemeLengthIsPrefix | services/geminiService.ts:138 | `https?:\/\/` matches 8 characters exactly where `https://` occurs, 7 exactly where `http://` occurs, else 0 |
| StoreLinks.MatchLength | services/geminiService.ts:138 | the match anchored at a position fits in the text |
| StoreLinks.MatchIsToken | services/geminiService.ts:138 | a scheme followed by a non-empty run of URL characters is a URL token |
| StoreLinks.MatchLengthIsToken | services/geminiService.ts:138 | an anchored match is a URL token and is maximal, followed by whitespace, `)` or the end |
| StoreLinks.RunEndReaches | services/geminiService.ts:138 | a run of URL characters lies within the greedy run that starts where it starts |
| StoreLinks.TokenMatchLength | services/geminiService.ts:138 | where a URL token starts, the anchored match is non-empty and reaches at least the token's end |
| StoreLinks.Starts | services/geminiService.ts:140 | the global scan finds only positions where the expression matches |
| StoreLinks.StartsOrdered | services/geminiService.ts:140 | each match found ends at or before the next one starts |
| StoreLinks.StartsCover | services/geminiService.ts:140 | every matching position lies within a match the scan finds |
| StoreLinks.UrlMatches | services/geminiService.ts:140 | one match string per position found |
| StoreLinks.UrlMatchAt | services/geminiService.ts:140 | match number `k` is a URL token found in the text at its start, running up to whitespace, `)` or the end |
| StoreLinks.UrlMatchesAreTokens | services/geminiService.ts:140 | every match of `text.match(urlRegex)` is a maximal URL token of the text |
| StoreLinks.UrlMatchesInTextOrder | services/geminiService.ts:140 | the matches come in text order and do not overlap |
| StoreLinks.HitIsCovered | services/geminiService.ts:140 | a position where the expression matches lies within a match found |
| StoreLinks.MatchSpansToken | services/geminiService.ts:138-140 | a match reaching into a URL token runs to the token's end |
| StoreLinks.UrlMatchesComplete | services/geminiService.ts:138-140 | no URL is missed: every URL token of the text, from its start to its end, lies within one of the matches returned |
| StoreLinks.UrlMatchesOfToken | services/geminiService.ts:138-140 | a text that is one URL token is matched whole, as the only match |
| StoreLinks.ChunkUris | services/geminiService.ts:143-150 | one chunk's pushed URIs, web before maps; its property is `StoreLinks.GroundingUrisMembers` |
| StoreLinks.GroundingUris | services/geminiService.ts:143-150 | the URIs the `forEach` pushes; its properties are `StoreLinks.GroundingUrisAppend`, `StoreLinks.GroundingUrisMembers` and `StoreLinks.PushGroundingUris` |
| StoreLinks.GroundingUrisAppend | services/geminiService.ts:143-150 | the URIs of a list of chunks are those of its parts, in order |
| StoreLinks.GroundingUrisMembers | services/geminiService.ts:143-150 | a URI is pushed exactly when some chunk carries it as a non-empty string under `web` or `maps` |
| StoreLinks.PushGroundingUris | services/geminiService.ts:143-150 | the loop appends each chunk's web URI, then its maps URI, in chunk order |
| StoreLinks.ChunksOf | services/geminiService.ts:134 | the first candidate's grounding chunks, or none; its property is `StoreLinks.CandidatesMembers` |
| StoreLinks.Candidates | services/geminiService.ts:138-150 | the `urls` array: the text matches, then the citation URIs; its property is `StoreLinks.CandidatesMembers` |
| StoreLinks.CandidatesMembers | services/geminiService.ts:138-150 | a string is a candidate exactly when it is a match in the answer text or a URI some grounding chunk carries |
| StoreLinks.Dedup | services/geminiService.ts:152 | `[...new Set(urls)]`; its properties are `StoreLinks.DedupElements`, `StoreLinks.DedupDistinct` and `StoreLinks.DedupFirstOccurrenceOrder` |
| StoreLinks.FirstIndex | services/geminiService.ts:152 | the index of the first occurrence of an element |
| StoreLinks.DedupElements | services/geminiService.ts:152 | `[...new Set(urls)]` keeps exactly the elements of `urls` |
| StoreLinks.DedupDistinct | services/geminiService.ts:152 | no element survives twice |
| StoreLinks.DedupFirstOccurrenceOrder | services/geminiService.ts:152 | the survivors are ordered by their first occurrence in the input |
| StoreLinks.DedupOfDistinct | services/geminiService.ts:152 | a list without duplicates is its own deduplication |
| StoreLinks.DedupIdempotent | services/geminiService.ts:152 | deduplicating twice is deduplicating once |
| StoreLinks.Take | services/geminiService.ts:154 | `slice(0, n)` is the prefix of length `min(n, length)` |
| StoreLinks.StoreName | services/geminiService.ts:156-158 | the name derived from a host; its properties are `StoreLinks.StoreNameIsLabel` and the lemmas below |
| StoreLinks.StoreNameIsLabel | services/geminiService.ts:156-158 | a store name is one dot-free label, no longer than the host |
| StoreLinks.StoreNameWithoutWww | services/geminiService.ts:156-158 | a host without `www.` is named after its first label, capitalised |
| StoreLinks.StoreNameLeadingWww | services/geminiService.ts:156-158 | a host starting with `www.` is named after the label that follows |
| StoreLinks.StoreNameOfWwwHost | services/geminiService.ts:156-158 | `www.<first>.<rest>` is named `first`, capitalised |
| StoreLinks.StoreNameOfPlainHost | services/geminiService.ts:156-158 | `<first>.<rest>` without `www.` is named `first`, capitalised |
| StoreLinks.StoreUrls | services/geminiService.ts:159 | one URL per store, in order |
| StoreLinks.ParsedUrls | services/geminiService.ts:154-164 | the kept URLs on which `new URL` does not throw; its properties are `StoreLinks.ParsedUrlsSubset` and `StoreLinks.ParsedUrlsAppend` |
| StoreLinks.StoresFor | services/geminiService.ts:133-166 | the stores of a search answer; its properties are `StoreLinks.StoresAtMostThree`, `StoreLinks.StoresHaveDistinctUrls`, `StoreLinks.StoresComeFromCandidates` and `StoreLinks.StoresCutBeforeValidation` |
| StoreLinks.StoreFor | services/geminiService.ts:155-163 | one kept URL's store, or none when `new URL` throws; its properties are `StoreLinks.StoresFromNamed` and `StoreLinks.StoresFromShape` |
| StoreLinks.StoresFrom | services/geminiService.ts:154-164 | the stores the `forEach` builds; its properties are `StoreLinks.StoresFromUrls`, `StoreLinks.StoresFromNamed`, `StoreLinks.StoresFromShape` and `StoreLinks.BuildStores` |
| StoreLinks.StoresFromUrls | services/geminiService.ts:154-164 | the store URLs are the kept URLs that parse, in their order |
| StoreLinks.StoresFromNamed | services/geminiService.ts:155-163 | every store is named after the host of its own URL and has no location |
| StoreLinks.StoresFromShape | services/geminiService.ts:154-164 | each store carries a parsable kept URL, the host-derived name and no location; the URLs keep their order |
| StoreLinks.ParsedUrlsSubset | services/geminiService.ts:155-163 | the filter keeps exactly the parsable URLs of its input, no more of them than the input, without duplicates when there were none |
| StoreLinks.ParsedUrlsAppend | services/geminiService.ts:154-164 | the filter keeps the order: filtering a concatenation concatenates the filtered parts |
| StoreLinks.ParsedUrlsAllParse | services/geminiService.ts:154-164 | URLs that all parse are kept whole |
| StoreLinks.ParsedUrlsDropInvalid | services/geminiService.ts:161-163 | an unparsable URL among the kept ones leaves fewer stores than URLs |
| StoreLinks.StoresAtMostThree | services/geminiService.ts:154 | at most three stores come back |
| StoreLinks.StoresHaveDistinctUrls | services/geminiService.ts:152-154 | no two stores share a URL |
| StoreLinks.StoresComeFromCandidates | services/geminiService.ts:138-160 | every store URL was matched in the answer text or cited by a grounding chunk, and names the store after its host |
| StoreLinks.StoresCutBeforeValidation | services/geminiService.ts:154-164 | the cut to three happens before parsing: an unparsable URL among the first three is not replaced by a later one |
| StoreLinks.BuildStores | services/geminiService.ts:154-164 | the `forEach` over the kept URLs builds exactly the stores of the specification |
| StoreLinks.FindStoresForItem | services/geminiService.ts:121-167 | the stores of a search answer: the matches, then the citations, deduplicated, cut to three, each parsable one named after its host |
| GeminiService.ImageFromResponse | services/geminiService.ts:110-113 | succeeds exactly when the image list is present and non-empty, with the first image's bytes; otherwise throws the synthesis-failure `Error` |
| GeminiService.ImagenPrompt | services/geminiService.ts:103 | the request prompt: the fixed photo prefix, then the prompt; its property is `GeminiService.GenerateImageWithImagen` |
| GeminiService.GenerateImageWithImagen | services/geminiService.ts:100-114 | the request carries the prompt behind the fixed prefix; it succeeds exactly when the request does and answers a non-empty image list, with the first image's bytes; a thrown request is passed on, an empty or missing list throws the synthesis-failure `Error` |
| GeminiService.PerspectivePrompt | services/geminiService.ts:117 | the perspective template; its properties are `GeminiService.PerspectivePromptSplits` and `GeminiService.PerspectivePromptInjective` |
| GeminiService.PerspectivePromptSplits | services/geminiService.ts:116-118 | the perspective prompt is the base prompt, the joining phrase, the angle description and a full stop |
| GeminiService.PerspectivePromptInjective | services/geminiService.ts:116-118 | for one base prompt, different angles give different prompts |
| GeminiService.GenerateRoomPerspective | services/geminiService.ts:116-119 | image synthesis of the perspective prompt; its properties are `GeminiService.PerspectivePromptSplits` and `GeminiService.GenerateImageWithImagen` |
| GeminiService.EditedImage | services/geminiService.ts:181-185 | succeeds exactly when the first candidate's first part carries inline data, which is the result; otherwise throws the edit-failure `Error` |
| GeminiService.EditImageWithGemini | services/geminiService.ts:169-186 | it succeeds exactly when the request does and the first candidate's first part carries inline data, which is the result; a thrown request is passed on, any other answer throws the edit-failure `Error` |
| GeminiService.AllDone | services/geminiService.ts:79-95 | `Promise.all` over settled replies; its properties are `GeminiService.AllDoneValues` and `GeminiService.AllDoneFirstFailure` |
| GeminiService.AllDoneValues | services/geminiService.ts:79-95 | `Promise.all` succeeds exactly when every element does, with every value in order |
| GeminiService.AllDoneFirstFailure | services/geminiService.ts:79-95 | the failure reported is that of the first element that failed |
| GeminiService.FindStores | services/geminiService.ts:121-167 | the grounded search, then the extraction; its property is `GeminiService.FindStoresResult` |
| GeminiService.FindStoresResult | services/geminiService.ts:121-167 | the search fails exactly when its remote call throws, with that error; otherwise at most three stores with distinct URLs, those extracted from the answer |
| GeminiService.EnrichItem | services/geminiService.ts:82-85 | one item with the stores found for it; its properties are `GeminiService.EnrichStyleCopies` and `GeminiService.EnrichStyleAllOrNothing` |
| GeminiService.EnrichStyle | services/geminiService.ts:79-95 | one design option; its properties are `GeminiService.EnrichStyleCopies` and `GeminiService.EnrichStyleAllOrNothing` |
| GeminiService.EnrichStyleCopies | services/geminiService.ts:79-95 | a design option copies its entry's texts, takes the synthesised image and lists its furniture in order, each item with the stores found for it |
| GeminiService.EnrichStyleAllOrNothing | services/geminiService.ts:79-95 | a design option is produced exactly when its image and the stores of all its items are |
| GeminiService.GenerateDesignsInOrder | services/geminiService.ts:49-98 | on success, one option per parsed entry, in order, each the enrichment of its entry |
| GeminiService.GenerateDesignsAllOrNothing | services/geminiService.ts:49-98 | generation succeeds exactly when the design request and every enrichment do; nothing partial is returned |
| GeminiService.GenerateDesigns | services/geminiService.ts:49-98 | `generateDesigns`; its properties are `GeminiService.GenerateDesignsInOrder` and `GeminiService.GenerateDesignsAllOrNothing` |
| GeminiService.GenerateColorPalettes | services/geminiService.ts:219-239 | the parsed palette answer passed on unchecked; no property is claimed |
| GeminiService.SessionAfter | services/geminiService.ts:189-194 | the session after one call; its properties are `GeminiService.SessionKept` and `GeminiService.FirstHistoryWins` |
| GeminiService.SessionKept | services/geminiService.ts:189-194 | an existing chat session is never replaced, whatever histories follow |
| GeminiService.FirstHistoryWins | services/geminiService.ts:189-194 | the session is the one created from the first call's history |
| GeminiService.ChatService.constructor | services/geminiService.ts:9 | there is no session before the first call |
| GeminiService.ChatService.GetChatResponse | services/geminiService.ts:188-198 | the session is created from `history` only when none exists; the message is sent through it, and the reply is the session's answer |
| App.Initial | App.tsx:15-32 | `initialState`; its properties are `App.AppStore.constructor` and `App.AppStore.HandleStartOver` |
| App.Uploaded | App.tsx:34-43 | the image and preview are stored, the step becomes preferences, error and options are cleared; nothing else changes |
| App.PreferencesChanged | App.tsx:45-47 | only the preferences change |
| App.GenerationStarted | App.tsx:51-57 | loading with the generation message, no error, the generating step; nothing else changes |
| App.GenerationOutcome | App.tsx:58-71 | success stores the designs and shows the results; failure shows the caught message and returns to the preferences |
| App.GenerationSettled | App.tsx:72-74 | the loading flag and message are reset; nothing else changes |
| App.GenerationHandled | App.tsx:49-75 | the generation handler with an image present; its property is `App.GenerationHandledResult` |
| App.PalettesStarted | App.tsx:95 | the palette flag is set and the error cleared; nothing else changes |
| App.PalettesOutcome | App.tsx:96-101 | success stores the palettes; failure shows the caught message |
| App.PalettesHandled | App.tsx:93-105 | the palette handler with an image present; its property is `App.PalettesHandledResult` |
| App.PaletteSelected | App.tsx:107-112 | only the preferences' palette changes, to the palette's name |
| App.WithImageIf | App.tsx:142 | one option, with the new image when its id matches; its property is `App.ReplaceGeneratedImage` |
| App.ReplaceGeneratedImage | App.tsx:141-143 | the options with the id get the new image; every other field and every other option are unchanged |
| App.ReplaceGeneratedImageIdempotent | App.tsx:141-143 | applying the same update twice is applying it once |
| App.ReplaceGeneratedImageUnknownId | App.tsx:141-143 | an id no option carries changes nothing |
| App.EditedImageUpdated | App.tsx:138-146 | the options are updated by id; the open editor's image is replaced whatever its id; nothing else changes |
| App.GenerationHandledResult | App.tsx:49-75 | afterwards nothing is loading; success shows exactly the designs received, failure returns to the preferences with the message and the old options |
| App.PalettesHandledResult | App.tsx:93-105 | afterwards the flag is clear and the step unchanged; success stores the palettes, failure shows the message |
| App.UploadThenGenerate | App.tsx:34-75 | after an upload and a generation, a success shows the designs and a failure shows the preferences with no options |
| App.AppStore.constructor | App.tsx:15-32 | the application starts in the initial state |
| App.AppStore.HandleImageUpload | App.tsx:34-43 | the state becomes the uploaded state; validity is kept and no URL is released |
| App.AppStore.HandlePreferencesChange | App.tsx:45-47 | the state takes the new preferences; validity is kept |
| App.AppStore.HandleGenerateDesigns | App.tsx:49-75 | without an image nothing happens; otherwise the state is the settled outcome of the design generation; validity is kept |
| App.AppStore.HandleEditImage | App.tsx:77-79 | the editor opens on the option |
| App.AppStore.HandleCloseEditor | App.tsx:81-83 | the editor closes and nothing else changes; closing a closed editor changes nothing |
| App.AppStore.HandleViewIn3D | App.tsx:85-87 | the viewer opens on the option |
| App.AppStore.HandleClose3DViewer | App.tsx:89-91 | the viewer closes and nothing else changes; closing a closed viewer changes nothing |
| App.AppStore.HandleGeneratePalettes | App.tsx:93-105 | without an image nothing happens; otherwise the state is the settled outcome of the palette request; validity is kept |
| App.AppStore.HandleSelectPalette | App.tsx:107-112 | the preferences' palette becomes the palette's name |
| App.AppStore.HandleStartOver | App.tsx:114-136 | a non-empty preview URL is released and the state is the initial one again |
| App.AppStore.HandleUpdateEditedImage | App.tsx:138-146 | the state becomes the edited-image update; validity is kept |
| PerspectiveViewer.Translation | components/ThreeDViewerModal.tsx:14-19 | the Spanish name of each angle; that distinct angles have distinct names is part of `PerspectiveViewer.LoadErrorMessageNamesAngle` |
| PerspectiveViewer.AnglePrompt | components/ThreeDViewerModal.tsx:21-25 | every angle but the front has a description |
| PerspectiveViewer.LoadErrorMessage | components/ThreeDViewerModal.tsx:51 | the failure message of an angle; its property is `PerspectiveViewer.LoadErrorMessageNamesAngle` |
| PerspectiveViewer.LoadErrorMessageNamesAngle | components/ThreeDViewerModal.tsx:51 | two angles have the same failure message exactly when they are the same angle |
| PerspectiveViewer.InitialViewer | components/ThreeDViewerModal.tsx:33-36 | only the front slot is filled, with the option's image; the front is shown, nothing is loading, no error |
| PerspectiveViewer.FetchSkipped | components/ThreeDViewerModal.tsx:41 | the guard: a filled slot, another fetch in flight, or the front; its property is `PerspectiveViewer.FetchSkippedChangesNothing` |
| PerspectiveViewer.FetchSkippedChangesNothing | components/ThreeDViewerModal.tsx:41 | a fetch of a filled slot, of the front, or during another fetch changes nothing |
| PerspectiveViewer.Fetched | components/ThreeDViewerModal.tsx:40-57 | the state after a fetch; its properties are `PerspectiveViewer.FetchSkippedChangesNothing`, `PerspectiveViewer.FetchOutcome` and `PerspectiveViewer.FetchKeepsFilled` |
| PerspectiveViewer.FetchOutcome | components/ThreeDViewerModal.tsx:42-56 | a fetch that runs ends with nothing loading and the view kept; success writes that slot alone, failure writes none and shows the angle's message |
| PerspectiveViewer.FetchKeepsFilled | components/ThreeDViewerModal.tsx:41-49 | a filled slot keeps its image through any fetch |
| PerspectiveViewer.Selected | components/ThreeDViewerModal.tsx:73-81 | the view moves only to a filled slot |
| PerspectiveViewer.PrefetchOne | components/ThreeDViewerModal.tsx:63-64 | one prefetch step, a fetch only when the slot is empty; its properties are `PerspectiveViewer.PrefetchOneSlots` and `PerspectiveViewer.ThreeSteps` |
| PerspectiveViewer.PrefetchOneSlots | components/ThreeDViewerModal.tsx:62-65 | one prefetch step writes at most its own slot, keeps the view and leaves nothing loading |
| PerspectiveViewer.Prefetched | components/ThreeDViewerModal.tsx:59-66 | the prefetch loop; its property is `PerspectiveViewer.PrefetchResult` |
| PerspectiveViewer.PrefetchResult | components/ThreeDViewerModal.tsx:59-66 | opening the viewer fills each empty side or top slot with its answer, or leaves it as it was when the request fails; filled slots and the front keep their images |
| PerspectiveViewer.ThreeSteps | components/ThreeDViewerModal.tsx:62-65 | three prefetch steps for left, right and top compose into the opening result |
| PerspectiveViewer.PrefetchedThree | components/ThreeDViewerModal.tsx:38 | the prefetch runs over left, right and top in that order |
| PerspectiveViewer.Viewer.constructor | components/ThreeDViewerModal.tsx:33-36 | the viewer starts in the initial viewer state, requesting each angle with the option's prompt |
| PerspectiveViewer.Viewer.FetchPerspective | components/ThreeDViewerModal.tsx:40-57 | the new state is the fetched state for the angle's reply |
| PerspectiveViewer.Viewer.SelectView | components/ThreeDViewerModal.tsx:80 | the new state is the selected state |
| PerspectiveViewer.Viewer.Open | components/ThreeDViewerModal.tsx:59-66 | the new state is the prefetch over left, right and top |
| Chatbot.Greeting | components/Chatbot.tsx:21 | the bot's opening message; its property is `Chatbot.InitialTranscriptValid` |
| Chatbot.InitialTranscript | components/Chatbot.tsx:20-22 | the transcript holding the greeting alone; its property is `Chatbot.InitialTranscriptValid` |
| Chatbot.Role | components/Chatbot.tsx:42 | `user` for the user, `model` for the bot; its property is `Chatbot.RoleRoundTrip` |
| Chatbot.RoleRoundTrip | components/Chatbot.tsx:42 | reading a history role back gives the sender it came from |
| Chatbot.HistoryOf | components/Chatbot.tsx:41-44 | one history entry per message, in order, with the sender's role and the text as its only part |
| Chatbot.HistoryOfAppend | components/Chatbot.tsx:41-44 | the history of a longer transcript extends that of its beginning |
| Chatbot.BotText | components/Chatbot.tsx:47-53 | the bot answers with the reply, or with the apology when the reply fails |
| Chatbot.TranscriptValid | components/Chatbot.tsx:20-57 | the greeting, then alternately a non-blank user message and a bot message; kept by `Chatbot.SendKeepsValid` |
| Chatbot.SendAppended | components/Chatbot.tsx:36-53 | the transcript after a send: the user message, then the bot message; its property is `Chatbot.SendKeepsValid` |
| Chatbot.InitialTranscriptValid | components/Chatbot.tsx:20-22 | the transcript starts valid: the greeting alone |
| Chatbot.SendKeepsValid | components/Chatbot.tsx:33-57 | a send of non-blank input keeps the transcript an alternation of user messages and bot answers after the greeting |
| Chatbot.Chat.constructor | components/Chatbot.tsx:20-24 | the chat starts with the greeting, an empty input and nothing loading |
| Chatbot.Chat.SetUserInput | components/Chatbot.tsx:23 | only the input changes |
| Chatbot.Chat.HandleSend | components/Chatbot.tsx:33-57 | blank input changes nothing; otherwise the session gets the transcript before the message, the user message and the bot's answer are appended, and the input is cleared |
| ImageEditor.SubmitDisabled | components/ImageEditorModal.tsx:79 | the `disabled` expression of the submit button; its property is `ImageEditor.SubmitDisabledIff` |
| ImageEditor.SubmitDisabledIff | components/ImageEditorModal.tsx:79 | submit is disabled exactly while loading or while the prompt is all whitespace |
| ImageEditor.Editor.constructor | components/ImageEditorModal.tsx:20-22 | the editor starts with an empty prompt, not loading, without an error |
| ImageEditor.Editor.SetPrompt | components/ImageEditorModal.tsx:69 | only the prompt changes |
| ImageEditor.Editor.HandleSubmit | components/ImageEditorModal.tsx:24-41 | blank prompt changes nothing; success hands the new image to the application under the option's id and clears the prompt; failure shows the caught message and keeps the prompt; loading always ends |

## Left out

- The prompts sent to the remote models, the response schemas and the model names are not modelled. The oracles stand for whatever the models answer; which answers a prompt gets is outside the model.
- `fileToGenerativePart` (reading the file as base64) and the API-key check at module load are not modelled: they are I/O.
- `JSON.parse` of the design and palette answers is folded into the `designs` and `palettes` oracles: a parse failure, or an answer whose entries lack a field, is one of their thrown replies. The response schema marks no property as required. A style without `furniture` makes `style.furniture.map` throw a `TypeError`, and a style without `imagePrompt` would send the text "undefined" behind the photo prefix. The model's `StyleEntry` always carries all four fields.
- `new URL(url).hostname` is the `hostname` oracle; URL parsing itself is not modelled.
- The `console.warn` and `console.error` calls are not modelled: they are output only.
- `GeminiService.GenerateColorPalettes`: the parsed palette answer is passed on unchecked, as in the source. No property of it is claimed, so the schema's three palettes of five colours are not modelled.
- `GeminiService.GenerateDesigns`: `Promise.all` is modelled with its elements settled in index order; within a style, the image request comes before the item searches. When several calls fail at once, the real failure is whichever rejects first in time, not necessarily the first by index.
- `PerspectiveViewer.Viewer.Open`: the source starts the three fetches without awaiting them, from one render whose `loadingAngle` is still empty. The model runs them one after another instead. The slots end up the same. The final `error` can differ: in the model a later fetch clears an earlier failure's message, while in the source the message of a failure that settles last stays.
- The staleness of React closures is not modelled beyond that case. For example, a second `handleGenerateDesigns` started while one is in flight.
- `Text.Capitalize`: upper-cases ASCII letters only. JavaScript's `toUpperCase` maps every Unicode letter, and some to more than one character.
- `GeminiService.ImageFromResponse`: the `TypeError` thrown when the first image has no `image` field is not modelled; an image entry always carries its bytes.
- `GeminiService.EditedImage`: the `TypeError` thrown when the first candidate has no `content` is not modelled; a candidate always has a list of parts.
- `StoreLinks.FindStoresForItem`: a search answer without `text` makes `text.match` throw. The model's answer text is always a string; that failure is one of the thrown replies of the `search` oracle.
- `GeminiService.ChatService.GetChatResponse`: an answer without `text` would be `undefined` and reach the transcript as such; the model's replies are always strings.
- `GeminiService.ChatService.GetChatResponse`: the session records the messages sent through it, but not what the remote chat keeps of failed sends.
- `ImageEditor.Editor.HandleSubmit`: the editor keeps the option it was opened with. It does not model the re-render that passes the updated option back in as its prop.
- The open/closed flags of the chat and the modals, the scrolling of the chat, and the presentation components (`Header`, `ImageUploader`, `PreferenceFilters`, `StyleOptionCard`, `Spinner`) are not modelled: they are presentation only.
- `URL.revokeObjectURL` is recorded in the ghost set `revoked`; releasing memory is not modelled.
