/** The records and enumerations of types.ts. */
module Types {
  import opened Wrappers

  /** A shop selling a furniture item; `location` is optional. */
  datatype Store = Store(name: string, url: string, location: Option<string>)

  datatype FurnitureItem = FurnitureItem(name: string, description: string, stores: seq<Store>)

  /** A named palette; `colors` holds hex codes. */
  datatype ColorPalette = ColorPalette(name: string, colors: seq<string>)

  /** One generated design concept. `generatedImage` is base64 image data and
      `imagePrompt` the text the image was synthesised from. */
  datatype StyleOption = StyleOption(
    id: string,
    styleName: string,
    description: string,
    generatedImage: string,
    imagePrompt: string,
    furniture: seq<FurnitureItem>)

  datatype FurnitureType = AnyType | Affordable | Luxury | Sustainable

  /** The string value behind each member of the `FurnitureType` enum. */
  function FurnitureTypeValue(t: FurnitureType): (v: string)
    ensures v in {"any", "affordable", "luxury", "sustainable"}
  {
    match t
    case AnyType => "any"
    case Affordable => "affordable"
    case Luxury => "luxury"
    case Sustainable => "sustainable"
  }

  /** Distinct members have distinct string values, so the four values
      identify the member. */
  lemma FurnitureTypeValueInjective(a: FurnitureType, b: FurnitureType)
    ensures FurnitureTypeValue(a) == FurnitureTypeValue(b) ==> a == b
  {
  }

  datatype Preferences = Preferences(colorPalette: string, furnitureType: FurnitureType, material: string)

  /** The wizard's steps. */
  datatype AppStep = UploadStep | PreferencesStep | GeneratingStep | ResultsStep

  /** The numeric value of each `AppStep` member: declaration order from 0. */
  function StepOrdinal(s: AppStep): (n: nat)
    ensures n < 4
    ensures n == 0 <==> s.UploadStep?
    ensures n == 1 <==> s.PreferencesStep?
    ensures n == 2 <==> s.GeneratingStep?
    ensures n == 3 <==> s.ResultsStep?
  {
    match s
    case UploadStep => 0
    case PreferencesStep => 1
    case GeneratingStep => 2
    case ResultsStep => 3
  }

  /** The uploaded `File`, an opaque handle. */
  datatype ImageFile = ImageFile(handle: nat)

  /** The single record of application state. `originalImageUrl` is the
      object URL of the preview; `editingImage` and `viewingIn3D` are the
      options shown in the editor and in the perspective viewer. */
  datatype AppState = AppState(
    step: AppStep,
    originalImage: Option<ImageFile>,
    originalImageUrl: Option<string>,
    preferences: Preferences,
    styleOptions: seq<StyleOption>,
    isLoading: bool,
    loadingMessage: string,
    error: Option<string>,
    editingImage: Option<StyleOption>,
    viewingIn3D: Option<StyleOption>,
    colorPalettes: seq<ColorPalette>,
    isGeneratingPalettes: bool)

  datatype Sender = User | Bot

  datatype ChatMessage = ChatMessage(id: string, text: string, sender: Sender)
}
