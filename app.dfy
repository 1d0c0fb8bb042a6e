/** The wizard of App.tsx: one `AppState` record, rewritten by each
    handler through successive updates. The updates are the functions
    below; the class `AppStore` holds the state cell and runs them. */
module App {
  import opened Wrappers
  import opened Types
  import opened GeminiService

  const GeneratingMessage := "Creando el cuarto de tus sue\U{00F1}os... Esto puede tardar unos minutos."
  const UnknownErrorMessage := "Ocurri\U{00F3} un error desconocido."
  const PalettesErrorMessage := "Error al generar las paletas de colores."

  /** The state the application starts from, and the one start-over
      restores. */
  const Initial := AppState(
    UploadStep, None, None, Preferences("", AnyType, ""), [],
    false, "", None, None, None, [], false)

  /** What every handler keeps: an image is present at every step but the
      upload step, and it has a preview URL exactly when it is present. */
  predicate AppValid(s: AppState) {
    && (s.step.UploadStep? <==> s.originalImage.None?)
    && (s.originalImage.Some? <==> s.originalImageUrl.Some?)
  }

  // ---------------------------------------------------------------------
  // The record updates

  /** `handleImageUpload`: the image and its preview are stored, the step
      moves to the preferences, the error and the options are cleared. */
  function Uploaded(s: AppState, file: ImageFile, url: string): (r: AppState)
    ensures r.originalImage == Some(file) && r.originalImageUrl == Some(url)
    ensures r.step == PreferencesStep && r.error == None && r.styleOptions == []
    ensures r.(originalImage := s.originalImage, originalImageUrl := s.originalImageUrl, step := s.step,
               error := s.error, styleOptions := s.styleOptions) == s
  {
    s.(originalImage := Some(file), originalImageUrl := Some(url), step := PreferencesStep, error := None, styleOptions := [])
  }

  /** `handlePreferencesChange`: only the preferences change. */
  function PreferencesChanged(s: AppState, p: Preferences): (r: AppState)
    ensures r.preferences == p
    ensures r.(preferences := s.preferences) == s
  {
    s.(preferences := p)
  }

  /** The update before the design request is awaited. */
  function GenerationStarted(s: AppState): (r: AppState)
    ensures r.isLoading && r.loadingMessage == GeneratingMessage && r.error == None && r.step == GeneratingStep
    ensures r.(isLoading := s.isLoading, loadingMessage := s.loadingMessage, error := s.error, step := s.step) == s
  {
    s.(isLoading := true, loadingMessage := GeneratingMessage, error := None, step := GeneratingStep)
  }

  /** The update when the design request has settled: on success the
      options are stored and the results shown; on failure the message is
      shown and the step goes back to the preferences, options untouched. */
  function GenerationOutcome(s: AppState, reply: Reply<seq<StyleOption>>): (r: AppState)
    ensures reply.Done? ==> r == s.(styleOptions := reply.value, step := ResultsStep)
    ensures reply.Threw? ==> r == s.(error := Some(CaughtMessage(reply.thrown, UnknownErrorMessage)), step := PreferencesStep)
  {
    match reply
    case Done(designs) => s.(styleOptions := designs, step := ResultsStep)
    case Threw(t) => s.(error := Some(CaughtMessage(t, UnknownErrorMessage)), step := PreferencesStep)
  }

  /** The `finally` of the generation: the loading flag and message are
      reset. */
  function GenerationSettled(s: AppState): (r: AppState)
    ensures !r.isLoading && r.loadingMessage == ""
    ensures r.(isLoading := s.isLoading, loadingMessage := s.loadingMessage) == s
  {
    s.(isLoading := false, loadingMessage := "")
  }

  /** `handleGenerateDesigns` with an image present, for the settled reply
      of the design request. */
  function GenerationHandled(s: AppState, reply: Reply<seq<StyleOption>>): AppState {
    GenerationSettled(GenerationOutcome(GenerationStarted(s), reply))
  }

  /** The update before the palette request is awaited. */
  function PalettesStarted(s: AppState): (r: AppState)
    ensures r.isGeneratingPalettes && r.error == None
    ensures r.(isGeneratingPalettes := s.isGeneratingPalettes, error := s.error) == s
  {
    s.(isGeneratingPalettes := true, error := None)
  }

  /** The palettes are stored on success; the message is shown on
      failure. */
  function PalettesOutcome(s: AppState, reply: Reply<seq<ColorPalette>>): (r: AppState)
    ensures reply.Done? ==> r == s.(colorPalettes := reply.value)
    ensures reply.Threw? ==> r == s.(error := Some(CaughtMessage(reply.thrown, PalettesErrorMessage)))
  {
    match reply
    case Done(palettes) => s.(colorPalettes := palettes)
    case Threw(t) => s.(error := Some(CaughtMessage(t, PalettesErrorMessage)))
  }

  /** `handleGeneratePalettes` with an image present, for the settled reply
      of the palette request. */
  function PalettesHandled(s: AppState, reply: Reply<seq<ColorPalette>>): AppState {
    PalettesOutcome(PalettesStarted(s), reply).(isGeneratingPalettes := false)
  }

  /** `handleSelectPalette`: the preferences change, and only in their
      palette, which becomes the palette's name. */
  function PaletteSelected(s: AppState, palette: ColorPalette): (r: AppState)
    ensures r.preferences.colorPalette == palette.name
    ensures r.(preferences := r.preferences.(colorPalette := s.preferences.colorPalette)) == s
  {
    PreferencesChanged(s, s.preferences.(colorPalette := palette.name))
  }

  /** `opt.id === styleId ? { ...opt, generatedImage: newImage } : opt`. */
  function WithImageIf(o: StyleOption, styleId: string, newImage: string): StyleOption {
    if o.id == styleId then o.(generatedImage := newImage) else o
  }

  /** The `map` of `handleUpdateEditedImage`: the options whose id matches
      get the new image; every other field and every other option keep
      theirs. */
  function ReplaceGeneratedImage(opts: seq<StyleOption>, styleId: string, newImage: string): (r: seq<StyleOption>)
    ensures |r| == |opts|
    ensures forall k :: 0 <= k < |opts| ==> r[k].(generatedImage := opts[k].generatedImage) == opts[k]
    ensures forall k :: 0 <= k < |opts| ==>
      r[k].generatedImage == (if opts[k].id == styleId then newImage else opts[k].generatedImage)
    decreases |opts|
  {
    if opts == [] then [] else [WithImageIf(opts[0], styleId, newImage)] + ReplaceGeneratedImage(opts[1..], styleId, newImage)
  }

  /** Updating to the same image twice is the same as once. */
  lemma ReplaceGeneratedImageIdempotent(opts: seq<StyleOption>, styleId: string, newImage: string)
    ensures ReplaceGeneratedImage(ReplaceGeneratedImage(opts, styleId, newImage), styleId, newImage)
      == ReplaceGeneratedImage(opts, styleId, newImage)
  {
    var once := ReplaceGeneratedImage(opts, styleId, newImage);
    var twice := ReplaceGeneratedImage(once, styleId, newImage);
    assert forall k :: 0 <= k < |opts| ==> twice[k] == once[k];
  }

  /** An id no option carries changes nothing. */
  lemma ReplaceGeneratedImageUnknownId(opts: seq<StyleOption>, styleId: string, newImage: string)
    requires forall k :: 0 <= k < |opts| ==> opts[k].id != styleId
    ensures ReplaceGeneratedImage(opts, styleId, newImage) == opts
  {
    var r := ReplaceGeneratedImage(opts, styleId, newImage);
    assert forall k :: 0 <= k < |opts| ==> r[k] == opts[k];
  }

  /** `handleUpdateEditedImage`: the matching options get the new image,
      and the image in the editor gets it whenever there is one, whatever
      its id. */
  function EditedImageUpdated(s: AppState, styleId: string, newImage: string): (r: AppState)
    ensures r.styleOptions == ReplaceGeneratedImage(s.styleOptions, styleId, newImage)
    ensures s.editingImage.None? ==> r.editingImage.None?
    ensures s.editingImage.Some? ==> r.editingImage == Some(s.editingImage.value.(generatedImage := newImage))
    ensures r.(styleOptions := s.styleOptions, editingImage := s.editingImage) == s
  {
    s.(styleOptions := ReplaceGeneratedImage(s.styleOptions, styleId, newImage),
       editingImage := if s.editingImage.Some? then Some(s.editingImage.value.(generatedImage := newImage)) else None)
  }

  // ---------------------------------------------------------------------
  // Properties of the transitions

  /** After the generation the loading flag and message are always reset;
      success shows the results with exactly the designs received, failure
      returns to the preferences with the message and the options as they
      were. */
  lemma GenerationHandledResult(s: AppState, reply: Reply<seq<StyleOption>>)
    ensures var r := GenerationHandled(s, reply);
      && !r.isLoading && r.loadingMessage == ""
      && r.originalImage == s.originalImage && r.preferences == s.preferences
      && r.colorPalettes == s.colorPalettes && r.editingImage == s.editingImage && r.viewingIn3D == s.viewingIn3D
      && (reply.Done? ==> r.step == ResultsStep && r.styleOptions == reply.value && r.error == None)
      && (reply.Threw? ==> r.step == PreferencesStep && r.styleOptions == s.styleOptions
                           && r.error == Some(CaughtMessage(reply.thrown, UnknownErrorMessage)))
  {
  }

  /** After the palette request the flag is always cleared and the step is
      never changed; success stores the palettes, failure shows the
      message. */
  lemma PalettesHandledResult(s: AppState, reply: Reply<seq<ColorPalette>>)
    ensures var r := PalettesHandled(s, reply);
      && !r.isGeneratingPalettes && r.step == s.step && r.styleOptions == s.styleOptions
      && (reply.Done? ==> r.colorPalettes == reply.value && r.error == None)
      && (reply.Threw? ==> r.colorPalettes == s.colorPalettes
                           && r.error == Some(CaughtMessage(reply.thrown, PalettesErrorMessage)))
  {
  }

  /** An upload followed by a generation: from any state, the designs are
      shown when the request succeeds; when it fails the preferences are
      shown again with no options. */
  lemma UploadThenGenerate(s: AppState, file: ImageFile, url: string, reply: Reply<seq<StyleOption>>)
    ensures var r := GenerationHandled(Uploaded(s, file, url), reply);
      && r.originalImage == Some(file) && r.originalImageUrl == Some(url) && AppValid(r)
      && (reply.Done? ==> r.step == ResultsStep && r.styleOptions == reply.value && r.error == None)
      && (reply.Threw? ==> r.step == PreferencesStep && r.styleOptions == [])
  {
    GenerationHandledResult(Uploaded(s, file, url), reply);
  }

  // ---------------------------------------------------------------------
  // The state cell

  /** The `useState<AppState>` cell of the App component. */
  class AppStore {
    const remote: Remote
    var state: AppState
    /** The preview URLs released with `URL.revokeObjectURL`. */
    ghost var revoked: set<string>

    constructor (remote: Remote)
      ensures this.remote == remote && state == Initial && revoked == {}
    {
      this.remote := remote;
      state := Initial;
      revoked := {};
    }

    /** `handleImageUpload(file)`; `url` is the object URL created for it. */
    method HandleImageUpload(file: ImageFile, url: string)
      requires AppValid(state)
      modifies this
      ensures state == Uploaded(old(state), file, url) && AppValid(state)
      ensures revoked == old(revoked)
    {
      state := Uploaded(state, file, url);
    }

    /** `handlePreferencesChange(newPreferences)`. */
    method HandlePreferencesChange(p: Preferences)
      requires AppValid(state)
      modifies this
      ensures state == PreferencesChanged(old(state), p) && AppValid(state)
      ensures revoked == old(revoked)
    {
      state := PreferencesChanged(state, p);
    }

    /** `handleGenerateDesigns()`; `ids` gives the fresh option ids. */
    method HandleGenerateDesigns(ids: nat -> string)
      requires AppValid(state)
      modifies this
      ensures old(state).originalImage.None? ==> state == old(state)
      ensures old(state).originalImage.Some? ==>
        state == GenerationHandled(old(state), GenerateDesigns(remote, old(state).originalImage.value, old(state).preferences, ids))
      ensures AppValid(state) && revoked == old(revoked)
    {
      if state.originalImage.None? {
        return;
      }
      var image := state.originalImage.value;
      var prefs := state.preferences;
      state := GenerationStarted(state);
      var reply := GenerateDesigns(remote, image, prefs, ids);
      state := GenerationOutcome(state, reply);
      state := GenerationSettled(state);
    }

    /** `handleEditImage(styleOption)`: the editor opens on the option. */
    method HandleEditImage(o: StyleOption)
      requires AppValid(state)
      modifies this
      ensures state == old(state).(editingImage := Some(o)) && AppValid(state)
      ensures revoked == old(revoked)
    {
      state := state.(editingImage := Some(o));
    }

    /** `handleCloseEditor()`; closing an editor that is not open changes
        nothing. */
    method HandleCloseEditor()
      requires AppValid(state)
      modifies this
      ensures state == old(state).(editingImage := None) && AppValid(state)
      ensures revoked == old(revoked)
      ensures old(state).editingImage.None? ==> state == old(state)
    {
      state := state.(editingImage := None);
    }

    /** `handleViewIn3D(styleOption)`: the viewer opens on the option. */
    method HandleViewIn3D(o: StyleOption)
      requires AppValid(state)
      modifies this
      ensures state == old(state).(viewingIn3D := Some(o)) && AppValid(state)
      ensures revoked == old(revoked)
    {
      state := state.(viewingIn3D := Some(o));
    }

    /** `handleClose3DViewer()`; closing a viewer that is not open changes
        nothing. */
    method HandleClose3DViewer()
      requires AppValid(state)
      modifies this
      ensures state == old(state).(viewingIn3D := None) && AppValid(state)
      ensures revoked == old(revoked)
      ensures old(state).viewingIn3D.None? ==> state == old(state)
    {
      state := state.(viewingIn3D := None);
    }

    /** `handleGeneratePalettes()`. */
    method HandleGeneratePalettes()
      requires AppValid(state)
      modifies this
      ensures old(state).originalImage.None? ==> state == old(state)
      ensures old(state).originalImage.Some? ==>
        state == PalettesHandled(old(state), GenerateColorPalettes(remote, old(state).originalImage.value))
      ensures AppValid(state) && revoked == old(revoked)
    {
      if state.originalImage.None? {
        return;
      }
      var image := state.originalImage.value;
      state := PalettesStarted(state);
      var reply := GenerateColorPalettes(remote, image);
      state := PalettesOutcome(state, reply);
      state := state.(isGeneratingPalettes := false);
    }

    /** `handleSelectPalette(palette)`. */
    method HandleSelectPalette(palette: ColorPalette)
      requires AppValid(state)
      modifies this
      ensures state == PaletteSelected(old(state), palette) && AppValid(state)
      ensures revoked == old(revoked)
    {
      HandlePreferencesChange(state.preferences.(colorPalette := palette.name));
    }

    /** `handleStartOver()`: a non-empty preview URL is released, and the
        state is the initial one again, whatever it was. */
    method HandleStartOver()
      requires AppValid(state)
      modifies this
      ensures state == Initial && AppValid(state)
      ensures old(state).originalImageUrl.Some? && old(state).originalImageUrl.value != "" ==>
        revoked == old(revoked) + {old(state).originalImageUrl.value}
      ensures old(state).originalImageUrl.None? || old(state).originalImageUrl.value == "" ==> revoked == old(revoked)
    {
      if state.originalImageUrl.Some? && state.originalImageUrl.value != "" {
        revoked := revoked + {state.originalImageUrl.value};
      }
      state := Initial;
    }

    /** `handleUpdateEditedImage(styleId, newImage)`. */
    method HandleUpdateEditedImage(styleId: string, newImage: string)
      requires AppValid(state)
      modifies this
      ensures state == EditedImageUpdated(old(state), styleId, newImage) && AppValid(state)
      ensures revoked == old(revoked)
    {
      state := EditedImageUpdated(state, styleId, newImage);
    }
  }
}
