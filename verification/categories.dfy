/** The fixed category list and its mapping to the idea service's slugs
    (src/App.js, the `CATEGORIES` and `CATEGORY_TO_API_MAP` constants).
    A category is one label of a fixed enumeration; `Name` gives the display
    string the page shows and the fallback template embeds. */
module Categories {
  import opened Options
  import opened Seqs

  datatype Category =
    | GenerativeVisualsAmbience
    | AudioMusic
    | ProductivityTime
    | WritingLanguage
    | WellnessMood
    | SocialPlayful
    | DataVizualization
    | WebReadersScrapersLinkers
    | GamesToys
    | DeveloperCreativeUtilities
    | RetroWeb
    | Printables
    | LearningStudying
    | Accessibility
    | ColorTypeLayout
    | CameraVisualEffects
    | Marketing
    | PersonalFinance
    | MapsPlacesJourneys
    | Collaboration

  /** How many categories one generation draws. */
  const SampleSize: nat := 3

  /** The twenty categories, in source order. */
  const All: seq<Category> := [
    GenerativeVisualsAmbience, AudioMusic, ProductivityTime, WritingLanguage,
    WellnessMood, SocialPlayful, DataVizualization, WebReadersScrapersLinkers,
    GamesToys, DeveloperCreativeUtilities, RetroWeb, Printables,
    LearningStudying, Accessibility, ColorTypeLayout, CameraVisualEffects,
    Marketing, PersonalFinance, MapsPlacesJourneys, Collaboration
  ]

  /** The display string (spelling kept as written, "Vizualization" and
      "Utiltiies" included). */
  function Name(c: Category): string
  {
    match c
    case GenerativeVisualsAmbience => "Generative Visuals & Ambience"
    case AudioMusic => "Audio & Music"
    case ProductivityTime => "Productivity & Time"
    case WritingLanguage => "Writing & Language"
    case WellnessMood => "Wellness & Mood"
    case SocialPlayful => "Social & Playful"
    case DataVizualization => "Data and Vizualization"
    case WebReadersScrapersLinkers => "Web Readers, Scrapers & Linkers"
    case GamesToys => "Games & Toys"
    case DeveloperCreativeUtilities => "Developer and Creative Utiltiies"
    case RetroWeb => "Retro Web"
    case Printables => "Printables"
    case LearningStudying => "Learning & Studying"
    case Accessibility => "Accessibility"
    case ColorTypeLayout => "Color, Type & Layout"
    case CameraVisualEffects => "Camera & Visual Effects"
    case Marketing => "Marketing"
    case PersonalFinance => "Personal Finance"
    case MapsPlacesJourneys => "Maps, Places & Journeys"
    case Collaboration => "Collaboration"
  }

  /** `CATEGORY_TO_API_MAP`: display string to the slug sent as the `c` query
      parameter, keyed by the same strings `Name` gives. */
  const ApiMap: map<string, string> := map[
    "Generative Visuals & Ambience" := "generative-visuals-ambience",
    "Audio & Music" := "audio-music",
    "Productivity & Time" := "productivity-time",
    "Writing & Language" := "writing-language",
    "Wellness & Mood" := "wellness-mood",
    "Social & Playful" := "social-playful",
    "Data and Vizualization" := "data-and-vizualization",
    "Web Readers, Scrapers & Linkers" := "web-readers-scrapers-linkers",
    "Games & Toys" := "games-toys",
    "Developer and Creative Utiltiies" := "developer-and-creative-utiltiies",
    "Retro Web" := "retro-web",
    "Printables" := "printables",
    "Learning & Studying" := "learning-studying",
    "Accessibility" := "accessibility",
    "Color, Type & Layout" := "color-type-layout",
    "Camera & Visual Effects" := "camera-visual-effects",
    "Marketing" := "marketing",
    "Personal Finance" := "personal-finance",
    "Maps, Places & Journeys" := "maps-places-journeys",
    "Collaboration" := "collaboration"
  ]

  /** The slug lookup as the generator reads it: the map indexed by the
      category's display string; `None` (or an empty slug) would be "no
      mapping". Every category's display string is a key with a non-empty
      slug, so the generator's skip branch never fires. */
  function ApiSlug(c: Category): (r: Option<string>)
    ensures Truthy(r)
  {
    if Name(c) in ApiMap then Some(ApiMap[Name(c)]) else None
  }

  /** Different categories have different display strings, so comparing
      categories is comparing the strings the source compares. */
  lemma NameInjective(a: Category, b: Category)
    ensures Name(a) == Name(b) ==> a == b
  {
  }

  /** The list has twenty entries and no repeats. */
  lemma CategoriesDistinct()
    ensures |All| == 20
    ensures Distinct(All)
  {
  }

  /** No display string appears twice in the list. */
  lemma CategoryNamesDistinct()
    ensures forall i, j :: 0 <= i < j < |All| ==> Name(All[i]) != Name(All[j])
  {
    CategoriesDistinct();
    forall i, j | 0 <= i < j < |All| ensures Name(All[i]) != Name(All[j]) {
      NameInjective(All[i], All[j]);
    }
  }
}
