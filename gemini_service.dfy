/** The client of the generative-AI service: the prompts it composes, the
    checks on what the service answers, the assembly of design options and
    the shared chat session. Every remote call is an oracle of `Remote`. */
module GeminiService {
  import opened Wrappers
  import opened Types
  import opened StoreLinks

  // ---------------------------------------------------------------------
  // Replies of the service

  /** One image of an image-synthesis reply, with its base64 bytes. */
  datatype GeneratedImage = GeneratedImage(imageBytes: string)

  /** The reply of `generateImages`; `generatedImages` may be absent. */
  datatype ImagesResponse = ImagesResponse(generatedImages: Option<seq<GeneratedImage>>)

  datatype InlineData = InlineData(data: string, mimeType: string)

  /** A content part of an edit reply, with or without inline image data. */
  datatype Part = Part(inlineData: Option<InlineData>)

  datatype EditCandidate = EditCandidate(parts: seq<Part>)

  /** The reply of the image-editing call. */
  datatype EditResponse = EditResponse(candidates: seq<EditCandidate>)

  /** A furniture entry of the parsed design reply. */
  datatype ItemEntry = ItemEntry(name: string, description: string)

  /** A style entry of the parsed design reply. */
  datatype StyleEntry = StyleEntry(styleName: string, description: string, imagePrompt: string, furniture: seq<ItemEntry>)

  datatype TextPart = TextPart(text: string)

  /** One turn of the history a chat session is created with. */
  datatype HistoryEntry = HistoryEntry(role: string, parts: seq<TextPart>)

  /** The remote service, one oracle per call, each keyed by what the call
      sends:
      - `designs`: the design request for an image and preferences, its
        JSON text already parsed;
      - `images`: an image synthesis for a prompt;
      - `search`: the grounded store search for an item name and a
        furniture type;
      - `hostname`: `new URL(u).hostname`, `None` where the constructor
        throws;
      - `edit`: an image edit for image data, a MIME type and a prompt;
      - `palettes`: the palette request for an image, parsed;
      - `chat`: the reply of a session created with a history, after the
        earlier messages, to a new message. */
  datatype Remote = Remote(
    designs: (ImageFile, Preferences) -> Reply<seq<StyleEntry>>,
    images: string -> Reply<ImagesResponse>,
    search: (string, FurnitureType) -> Reply<SearchResponse>,
    hostname: string -> Option<string>,
    edit: (string, string, string) -> Reply<EditResponse>,
    palettes: ImageFile -> Reply<seq<ColorPalette>>,
    chat: (seq<HistoryEntry>, seq<string>, string) -> Reply<string>)

  // ---------------------------------------------------------------------
  // Image synthesis

  const ImageFailedMessage := "La generaci\U{00F3}n de la imagen fall\U{00F3}."

  const ImagenPrefix := "Foto de dise\U{00F1}o de interiores fotorrealista: "

  function ImagenPrompt(prompt: string): string {
    ImagenPrefix + prompt
  }

  /** The check after `generateImages`: a missing or empty image list is a
      failure, otherwise the first image's bytes are the result. */
  function ImageFromResponse(r: ImagesResponse): (res: Reply<string>)
    ensures res.Done? <==> r.generatedImages.Some? && |r.generatedImages.value| > 0
    ensures res.Done? ==> res.value == r.generatedImages.value[0].imageBytes
    ensures res.Threw? ==> res.thrown == ErrorObject(ImageFailedMessage)
  {
    if r.generatedImages.None? || |r.generatedImages.value| == 0 then Threw(ErrorObject(ImageFailedMessage))
    else Done(r.generatedImages.value[0].imageBytes)
  }

  /** `generateImageWithImagen(prompt)`: the synthesis request is sent with
      the prompt behind the fixed prefix. It succeeds exactly when the
      request does and answers a non-empty image list, with the first
      image's bytes; a thrown request is passed on, and an empty or missing
      list throws the synthesis-failure error. */
  function GenerateImageWithImagen(remote: Remote, prompt: string): (res: Reply<string>)
    ensures var answer := remote.images(ImagenPrefix + prompt);
      && (res.Done? <==> answer.Done? && answer.value.generatedImages.Some? && |answer.value.generatedImages.value| > 0)
      && (res.Done? ==> res.value == answer.value.generatedImages.value[0].imageBytes)
      && (answer.Threw? ==> res == Threw(answer.thrown))
      && (answer.Done? && res.Threw? ==> res.thrown == ErrorObject(ImageFailedMessage))
  {
    match remote.images(ImagenPrompt(prompt))
    case Threw(t) => Threw(t)
    case Done(r) => ImageFromResponse(r)
  }

  const PerspectiveJoin := ", mostrado desde una perspectiva "

  /** The prompt of a perspective: the base prompt, the joining phrase, the
      angle description and a full stop. */
  function PerspectivePrompt(basePrompt: string, angle: string): string {
    basePrompt + PerspectiveJoin + angle + "."
  }

  /** A perspective prompt splits back into its base prompt, the joining
      phrase, the angle description and the closing full stop. */
  lemma PerspectivePromptSplits(basePrompt: string, angle: string)
    ensures |PerspectivePrompt(basePrompt, angle)| == |basePrompt| + |PerspectiveJoin| + |angle| + 1
    ensures PerspectivePrompt(basePrompt, angle)[..|basePrompt|] == basePrompt
    ensures PerspectivePrompt(basePrompt, angle)[|basePrompt|..|basePrompt| + |PerspectiveJoin|] == PerspectiveJoin
    ensures PerspectivePrompt(basePrompt, angle)[|basePrompt| + |PerspectiveJoin|..|PerspectivePrompt(basePrompt, angle)| - 1] == angle
    ensures PerspectivePrompt(basePrompt, angle)[|PerspectivePrompt(basePrompt, angle)| - 1] == '.'
  {
    var p := PerspectivePrompt(basePrompt, angle);
    var n := |basePrompt| + |PerspectiveJoin|;
    assert p == (basePrompt + PerspectiveJoin) + (angle + ".");
    assert p[..n] == basePrompt + PerspectiveJoin;
    assert p[n..|p| - 1] == angle;
    assert (basePrompt + PerspectiveJoin)[..|basePrompt|] == basePrompt;
    assert (basePrompt + PerspectiveJoin)[|basePrompt|..n] == PerspectiveJoin;
  }

  /** For one base prompt, different angle descriptions give different
      prompts. */
  lemma PerspectivePromptInjective(basePrompt: string, a: string, b: string)
    requires PerspectivePrompt(basePrompt, a) == PerspectivePrompt(basePrompt, b)
    ensures a == b
  {
    PerspectivePromptSplits(basePrompt, a);
    PerspectivePromptSplits(basePrompt, b);
  }

  /** `generateRoomPerspective(basePrompt, angle)`. */
  function GenerateRoomPerspective(remote: Remote, basePrompt: string, angle: string): Reply<string> {
    GenerateImageWithImagen(remote, PerspectivePrompt(basePrompt, angle))
  }

  // ---------------------------------------------------------------------
  // Image editing

  const EditFailedMessage := "Error al editar la imagen."

  /** The check after the edit call: the first part of the first candidate
      must carry inline data, which is the result. */
  function EditedImage(r: EditResponse): (res: Reply<string>)
    ensures res.Done? <==> |r.candidates| > 0 && |r.candidates[0].parts| > 0 && r.candidates[0].parts[0].inlineData.Some?
    ensures res.Done? ==> res.value == r.candidates[0].parts[0].inlineData.value.data
    ensures res.Threw? ==> res.thrown == ErrorObject(EditFailedMessage)
  {
    if |r.candidates| > 0 && |r.candidates[0].parts| > 0 && r.candidates[0].parts[0].inlineData.Some? then
      Done(r.candidates[0].parts[0].inlineData.value.data)
    else
      Threw(ErrorObject(EditFailedMessage))
  }

  /** `editImageWithGemini(base64Image, mimeType, prompt)`: it succeeds
      exactly when the request does and the first part of the first
      candidate carries inline data, which is the result; a thrown request
      is passed on, and any other answer throws the edit-failure error. */
  function EditImageWithGemini(remote: Remote, base64Image: string, mimeType: string, prompt: string): (res: Reply<string>)
    ensures var answer := remote.edit(base64Image, mimeType, prompt);
      && (res.Done? <==> answer.Done? && |answer.value.candidates| > 0 && |answer.value.candidates[0].parts| > 0
                         && answer.value.candidates[0].parts[0].inlineData.Some?)
      && (res.Done? ==> res.value == answer.value.candidates[0].parts[0].inlineData.value.data)
      && (answer.Threw? ==> res == Threw(answer.thrown))
      && (answer.Done? && res.Threw? ==> res.thrown == ErrorObject(EditFailedMessage))
  {
    match remote.edit(base64Image, mimeType, prompt)
    case Threw(t) => Threw(t)
    case Done(r) => EditedImage(r)
  }

  // ---------------------------------------------------------------------
  // Design generation

  /** `Promise.all` over settled replies taken in order: all the values when
      every reply succeeded, otherwise the first failure. */
  function AllDone<T>(rs: seq<Reply<T>>): (r: Reply<seq<T>>)
    decreases |rs|
  {
    if rs == [] then Done([])
    else
      match rs[0]
      case Threw(t) => Threw(t)
      case Done(v) =>
        match AllDone(rs[1..])
        case Threw(t) => Threw(t)
        case Done(vs) => Done([v] + vs)
  }

  /** All the values, in order, exactly when every reply succeeded. */
  lemma {:induction false} AllDoneValues<T>(rs: seq<Reply<T>>)
    ensures AllDone(rs).Done? <==> forall k :: 0 <= k < |rs| ==> rs[k].Done?
    ensures AllDone(rs).Done? ==>
      |AllDone(rs).value| == |rs| && forall k :: 0 <= k < |rs| ==> AllDone(rs).value[k] == rs[k].value
    decreases |rs|
  {
    if rs != [] {
      AllDoneValues(rs[1..]);
      assert forall k :: 1 <= k < |rs| ==> rs[k] == rs[1..][k - 1];
    }
  }

  /** The failure reported is that of the first reply that failed. */
  lemma {:induction false} AllDoneFirstFailure<T>(rs: seq<Reply<T>>, i: nat)
    requires i < |rs| && rs[i].Threw?
    requires forall j :: 0 <= j < i ==> rs[j].Done?
    ensures AllDone(rs) == Threw(rs[i].thrown)
    decreases i
  {
    if i > 0 {
      assert rs[1..][i - 1] == rs[i];
      AllDoneFirstFailure(rs[1..], i - 1);
    }
  }

  /** `findStoresForItem(itemName, preferences)`: the grounded search, then
      the store-link extraction of `StoresFor`. */
  function FindStores(remote: Remote, prefs: Preferences, itemName: string): Reply<seq<Store>> {
    match remote.search(itemName, prefs.furnitureType)
    case Threw(t) => Threw(t)
    case Done(r) => Done(StoresFor(r, remote.hostname))
  }

  /** The search for an item fails exactly when its remote call throws;
      otherwise it gives the stores extracted from the answer: at most
      three, with distinct URLs. */
  lemma FindStoresResult(remote: Remote, prefs: Preferences, itemName: string)
    ensures FindStores(remote, prefs, itemName).Done? <==> remote.search(itemName, prefs.furnitureType).Done?
    ensures FindStores(remote, prefs, itemName).Threw? ==>
      FindStores(remote, prefs, itemName).thrown == remote.search(itemName, prefs.furnitureType).thrown
    ensures FindStores(remote, prefs, itemName).Done? ==>
      var stores := FindStores(remote, prefs, itemName).value;
      && stores == StoresFor(remote.search(itemName, prefs.furnitureType).value, remote.hostname)
      && |stores| <= MaxStores
      && forall i, j :: 0 <= i < j < |stores| ==> stores[i].url != stores[j].url
  {
    if remote.search(itemName, prefs.furnitureType).Done? {
      var r := remote.search(itemName, prefs.furnitureType).value;
      StoresAtMostThree(r, remote.hostname);
      StoresHaveDistinctUrls(r, remote.hostname);
    }
  }

  /** `{ ...item, stores }` once the item's stores are found. */
  function EnrichItem(remote: Remote, prefs: Preferences, item: ItemEntry): Reply<FurnitureItem> {
    match FindStores(remote, prefs, item.name)
    case Threw(t) => Threw(t)
    case Done(stores) => Done(FurnitureItem(item.name, item.description, stores))
  }

  function ItemReplies(remote: Remote, prefs: Preferences, items: seq<ItemEntry>): (rs: seq<Reply<FurnitureItem>>)
    ensures |rs| == |items|
    ensures forall j :: 0 <= j < |items| ==> rs[j] == EnrichItem(remote, prefs, items[j])
  {
    seq(|items|, j requires 0 <= j < |items| => EnrichItem(remote, prefs, items[j]))
  }

  /** One design option: the image synthesised from the entry's prompt, then
      its furniture with stores; `id` is the fresh identifier. */
  function EnrichStyle(remote: Remote, prefs: Preferences, id: string, s: StyleEntry): Reply<StyleOption> {
    match GenerateImageWithImagen(remote, s.imagePrompt)
    case Threw(t) => Threw(t)
    case Done(image) =>
      match AllDone(ItemReplies(remote, prefs, s.furniture))
      case Threw(t) => Threw(t)
      case Done(items) => Done(StyleOption(id, s.styleName, s.description, image, s.imagePrompt, items))
  }

  function StyleReplies(remote: Remote, prefs: Preferences, ids: nat -> string, entries: seq<StyleEntry>): (rs: seq<Reply<StyleOption>>)
    ensures |rs| == |entries|
    ensures forall k :: 0 <= k < |entries| ==> rs[k] == EnrichStyle(remote, prefs, ids(k), entries[k])
  {
    seq(|entries|, k requires 0 <= k < |entries| => EnrichStyle(remote, prefs, ids(k), entries[k]))
  }

  /** `generateDesigns(image, preferences)`; `ids(k)` is the identifier
      `crypto.randomUUID` gives the option number `k`. */
  function GenerateDesigns(remote: Remote, image: ImageFile, prefs: Preferences, ids: nat -> string): Reply<seq<StyleOption>> {
    match remote.designs(image, prefs)
    case Threw(t) => Threw(t)
    case Done(entries) => AllDone(StyleReplies(remote, prefs, ids, entries))
  }

  /** A design option copies its entry's texts, takes the synthesised image,
      and keeps the furniture in order, each item with its stores. */
  lemma EnrichStyleCopies(remote: Remote, prefs: Preferences, id: string, s: StyleEntry)
    requires EnrichStyle(remote, prefs, id, s).Done?
    ensures GenerateImageWithImagen(remote, s.imagePrompt).Done?
    ensures var o := EnrichStyle(remote, prefs, id, s).value;
      && o.id == id && o.styleName == s.styleName && o.description == s.description
      && o.imagePrompt == s.imagePrompt
      && o.generatedImage == GenerateImageWithImagen(remote, s.imagePrompt).value
      && |o.furniture| == |s.furniture|
      && forall j :: 0 <= j < |s.furniture| ==>
        && FindStores(remote, prefs, s.furniture[j].name).Done?
        && o.furniture[j] == FurnitureItem(s.furniture[j].name, s.furniture[j].description, FindStores(remote, prefs, s.furniture[j].name).value)
  {
    var rs := ItemReplies(remote, prefs, s.furniture);
    AllDoneValues(rs);
  }

  /** A design option is produced exactly when its image and the stores of
      every one of its items are. */
  lemma EnrichStyleAllOrNothing(remote: Remote, prefs: Preferences, id: string, s: StyleEntry)
    ensures EnrichStyle(remote, prefs, id, s).Done? <==>
      && GenerateImageWithImagen(remote, s.imagePrompt).Done?
      && forall j :: 0 <= j < |s.furniture| ==> FindStores(remote, prefs, s.furniture[j].name).Done?
  {
    AllDoneValues(ItemReplies(remote, prefs, s.furniture));
  }

  /** On success there is one option per parsed entry, in the entries'
      order, each the enrichment of its entry under its fresh id. */
  lemma GenerateDesignsInOrder(remote: Remote, image: ImageFile, prefs: Preferences, ids: nat -> string)
    requires GenerateDesigns(remote, image, prefs, ids).Done?
    ensures remote.designs(image, prefs).Done?
    ensures var entries := remote.designs(image, prefs).value;
      var options := GenerateDesigns(remote, image, prefs, ids).value;
      && |options| == |entries|
      && forall k :: 0 <= k < |entries| ==>
        EnrichStyle(remote, prefs, ids(k), entries[k]) == Done(options[k])
  {
    AllDoneValues(StyleReplies(remote, prefs, ids, remote.designs(image, prefs).value));
  }

  /** Generation succeeds exactly when the design request does and every
      entry's enrichment does; nothing partial is ever returned. */
  lemma GenerateDesignsAllOrNothing(remote: Remote, image: ImageFile, prefs: Preferences, ids: nat -> string)
    ensures GenerateDesigns(remote, image, prefs, ids).Done? <==>
      && remote.designs(image, prefs).Done?
      && forall k :: 0 <= k < |remote.designs(image, prefs).value| ==>
        EnrichStyle(remote, prefs, ids(k), remote.designs(image, prefs).value[k]).Done?
  {
    if remote.designs(image, prefs).Done? {
      AllDoneValues(StyleReplies(remote, prefs, ids, remote.designs(image, prefs).value));
    }
  }

  /** `generateColorPalettes(image)`: the parsed palette reply, passed on
      unchecked. */
  function GenerateColorPalettes(remote: Remote, image: ImageFile): Reply<seq<ColorPalette>> {
    remote.palettes(image)
  }

  // ---------------------------------------------------------------------
  // The chat session

  /** The session after a call with `history`: created from it when there
      is none, kept as it is otherwise. */
  function SessionAfter(session: Option<seq<HistoryEntry>>, history: seq<HistoryEntry>): Option<seq<HistoryEntry>> {
    if session.None? then Some(history) else session
  }

  /** The session after calls with each history of `histories` in turn. */
  function SessionAfterAll(session: Option<seq<HistoryEntry>>, histories: seq<seq<HistoryEntry>>): Option<seq<HistoryEntry>>
    decreases |histories|
  {
    if histories == [] then session else SessionAfterAll(SessionAfter(session, histories[0]), histories[1..])
  }

  /** An existing session is never replaced. */
  lemma {:induction false} SessionKept(session: Option<seq<HistoryEntry>>, histories: seq<seq<HistoryEntry>>)
    requires session.Some?
    ensures SessionAfterAll(session, histories) == session
    decreases |histories|
  {
    if histories != [] {
      SessionKept(SessionAfter(session, histories[0]), histories[1..]);
    }
  }

  /** Over any run of calls, the session is the one created from the first
      call's history; the histories of later calls are ignored. */
  lemma FirstHistoryWins(histories: seq<seq<HistoryEntry>>)
    requires |histories| > 0
    ensures SessionAfterAll(None, histories) == Some(histories[0])
  {
    SessionKept(Some(histories[0]), histories[1..]);
  }

  /** The module-level `chatInstance`, with the messages sent through it. */
  class ChatService {
    const remote: Remote
    /** The history the session was created with, once it exists. */
    var session: Option<seq<HistoryEntry>>
    /** The messages sent through the session, in order. */
    var sent: seq<string>

    constructor (remote: Remote)
      ensures this.remote == remote && session == None && sent == []
    {
      this.remote := remote;
      session := None;
      sent := [];
    }

    /** `getChatResponse(history, message)`. */
    method GetChatResponse(history: seq<HistoryEntry>, message: string) returns (r: Reply<string>)
      modifies this
      ensures session == SessionAfter(old(session), history)
      ensures old(session).Some? ==> session == old(session)
      ensures sent == old(sent) + [message]
      ensures r == remote.chat(session.value, old(sent), message)
    {
      if session.None? {
        session := Some(history);
      }
      r := remote.chat(session.value, sent, message);
      sent := sent + [message];
    }
  }
}
