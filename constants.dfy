/** The app's configuration tables, and the facts about their shape that the
    other rules depend on. */
module Constants {
  import opened Types
  import Js

  /** A theme as offered in the creation wizard. */
  datatype ThemeOption = ThemeOption(id: Theme, displayName: string, emoji: string)

  const THEMES: seq<ThemeOption> := [
    ThemeOption(Fantasy, "Fantasy", "\U{1F3F0}"),
    ThemeOption(Adventure, "Adventure", "\U{1F5FA}\U{FE0F}"),
    ThemeOption(Science, "Science", "\U{1F52C}"),
    ThemeOption(Friendship, "Friendship", "\U{1F917}")
  ]

  const CHARACTERS: seq<Character> := [
    Character("Brave Knight", "A knight who is brave and kind, with shiny armor.", "\U{1F6E1}\U{FE0F}"),
    Character("Curious Astronaut", "An astronaut who loves exploring stars and new planets.", "\U{1F9D1}\U{200D}\U{1F680}"),
    Character("Magical Fairy", "A fairy with sparkling wings who can talk to animals.", "\U{1F9DA}\U{200D}\U{2640}\U{FE0F}"),
    Character("Clever Detective", "A detective who can solve any mystery with their big magnifying glass.", "\U{1F575}\U{FE0F}"),
    Character("Shy Dragon", "A small, friendly dragon who breathes bubbles instead of fire.", "\U{1F432}")
  ]

  // The prose of each age group, written into prompts.
  const MODIFIER_3_TO_5: string := "Use very simple language, short sentences, and a linear, repetitive plot. Focus on basic concepts like colors, shapes, and animals. The story should be around 200 words."
  const STYLE_3_TO_5: string := "Simple cartoon style illustration for toddlers, bright primary colors, cute friendly characters with big eyes, minimal background details, safe and happy appearance."
  const MODIFIER_5_TO_7: string := "Use simple but slightly more descriptive language. The plot can have a simple problem and resolution. Introduce themes of friendship and sharing. The story should be around 400 words."
  const STYLE_5_TO_7: string := "Colorful children's book illustration, cartoon style, expressive characters, moderately detailed backgrounds, warm and inviting atmosphere."
  const MODIFIER_7_TO_9: string := "Use richer vocabulary and more complex sentences. The plot can have multiple steps to solve a problem and introduce teamwork. The story should be around 800 words."
  const STYLE_7_TO_9: string := "Detailed children's book illustration, semi-realistic cartoon style, rich backgrounds, characters showing a range of emotions, educational elements woven in."
  const MODIFIER_9_TO_12: string := "Use sophisticated language and literary devices. The plot can be more complex with subplots and moral dilemmas. Explore themes of courage, responsibility, and discovery. The story should be around 1200 words."
  const STYLE_9_TO_12: string := "Sophisticated children's illustration, realistic cartoon style, complex scenes with dynamic lighting, mature themes, artistic composition."

  // The columns of `AGE_GROUPS`, one function each, so that a rule reading one
  // column does not carry the prose of the others.

  /** `AGE_GROUPS[g].label`. */
  function DisplayName(g: AgeGroup): string
  {
    match g
    case Ages3To5 => "3-5 years"
    case Ages5To7 => "5-7 years"
    case Ages7To9 => "7-9 years"
    case Ages9To12 => "9-12 years"
  }

  /** `AGE_GROUPS[g].storyPromptModifier`. */
  function StoryPromptModifier(g: AgeGroup): string
  {
    match g
    case Ages3To5 => MODIFIER_3_TO_5
    case Ages5To7 => MODIFIER_5_TO_7
    case Ages7To9 => MODIFIER_7_TO_9
    case Ages9To12 => MODIFIER_9_TO_12
  }

  /** `AGE_GROUPS[g].illustrationStyle`. */
  function IllustrationStyle(g: AgeGroup): string
  {
    match g
    case Ages3To5 => STYLE_3_TO_5
    case Ages5To7 => STYLE_5_TO_7
    case Ages7To9 => STYLE_7_TO_9
    case Ages9To12 => STYLE_9_TO_12
  }

  /** `AGE_GROUPS[g].color`. */
  function Color(g: AgeGroup): string
  {
    match g
    case Ages3To5 => "bg-green-400"
    case Ages5To7 => "bg-yellow-400"
    case Ages7To9 => "bg-orange-400"
    case Ages9To12 => "bg-blue-400"
  }

  /** `AGE_GROUPS[g]`: the record of an age group, assembled from its columns. */
  function AgeGroups(g: AgeGroup): AgeGroupDetails
  {
    AgeGroupDetails(DisplayName(g), StoryPromptModifier(g), IllustrationStyle(g), Color(g))
  }

  /** The keys of `AGE_GROUPS` in declaration order, as the age pickers list them. */
  const AGE_GROUP_KEYS: seq<AgeGroup> := [Ages3To5, Ages5To7, Ages7To9, Ages9To12]

  const LOADING_MESSAGES: seq<string> := [
    "Dreaming up a magical tale...",
    "Mixing colors for your picture...",
    "Waking up the story characters...",
    "Asking the wise old owl for ideas...",
    "Painting a world with magic pixels...",
    "Turning imagination into a story..."
  ]

  /** The record has exactly one key per age group, listed once each, and the
      keys are the four strings of the age-group type. */
  lemma AgeGroupKeysExact()
    ensures |AGE_GROUP_KEYS| == 4
    ensures forall g: AgeGroup :: g in AGE_GROUP_KEYS
    ensures forall i, j :: 0 <= i < j < |AGE_GROUP_KEYS| ==> AGE_GROUP_KEYS[i] != AGE_GROUP_KEYS[j]
    ensures forall g :: AgeGroupKey(g) in ["3-5", "5-7", "7-9", "9-12"]
  {
    forall g: AgeGroup ensures g in AGE_GROUP_KEYS {
      var i := match g case Ages3To5 => 0 case Ages5To7 => 1 case Ages7To9 => 2 case Ages9To12 => 3;
      assert AGE_GROUP_KEYS[i] == g;
    }
  }

  /** The themes a table offers. */
  function ThemeIds(options: seq<ThemeOption>): set<Theme>
  {
    set option | option in options :: option.id
  }

  /** The theme table lists every theme exactly once. */
  lemma ThemesCoverTheme()
    ensures forall t: Theme :: t in ThemeIds(THEMES)
    ensures forall i, j :: 0 <= i < j < |THEMES| ==> THEMES[i].id != THEMES[j].id
  {
    forall t: Theme ensures t in ThemeIds(THEMES) {
      var i := match t case Fantasy => 0 case Adventure => 1 case Science => 2 case Friendship => 3;
      assert THEMES[i] in THEMES && THEMES[i].id == t;
    }
  }

  /** No two preset heroes share a description, so at most one preset button
      shows as selected for a given selection. */
  lemma CharacterDescriptionsDistinct()
    ensures forall i, j :: 0 <= i < j < |CHARACTERS| ==> CHARACTERS[i].description != CHARACTERS[j].description
  {
  }

  /** The loading messages are non-empty and pairwise distinct, so `indexOf`
      finds each message at its own position. */
  lemma LoadingMessagesDistinct()
    ensures |LOADING_MESSAGES| == 6
    ensures forall i, j :: 0 <= i < j < |LOADING_MESSAGES| ==> LOADING_MESSAGES[i] != LOADING_MESSAGES[j]
  {
  }

  /** A colour class `bg-<name>-400` splits on `-` into `bg`, the name and `400`. */
  lemma {:induction false} SplitColorClass(name: string)
    requires '-' !in name
    ensures Js.Split("bg-" + name + "-400", '-') == ["bg", name, "400"]
  {
    var color := "bg-" + name + "-400";
    assert color == "bg" + ['-'] + (name + ['-'] + "400");
    Js.SplitAround("bg", '-', name + ['-'] + "400");
    Js.SplitAround(name, '-', "400");
    Js.SplitWithoutSeparator("bg", '-');
    Js.SplitWithoutSeparator(name, '-');
    Js.SplitWithoutSeparator("400", '-');
  }

  /** The colour name inside an age group's colour class. */
  function ColorName(g: AgeGroup): string
  {
    match g
    case Ages3To5 => "green"
    case Ages5To7 => "yellow"
    case Ages7To9 => "orange"
    case Ages9To12 => "blue"
  }

  /** Every age group's colour has the form `bg-<name>-400`, so the second
      `-`-separated piece is its colour name, one of the four. */
  lemma ColorShape(g: AgeGroup)
    ensures var pieces := Js.Split(Color(g), '-');
      && |pieces| == 3 && pieces[0] == "bg" && pieces[2] == "400"
      && pieces[1] == ColorName(g) && pieces[1] in ["green", "yellow", "orange", "blue"]
  {
    match g {
      case Ages3To5 =>
        assert Color(g) == "bg-" + "green" + "-400";
        SplitColorClass("green");
      case Ages5To7 =>
        assert Color(g) == "bg-" + "yellow" + "-400";
        SplitColorClass("yellow");
      case Ages7To9 =>
        assert Color(g) == "bg-" + "orange" + "-400";
        SplitColorClass("orange");
      case Ages9To12 =>
        assert Color(g) == "bg-" + "blue" + "-400";
        SplitColorClass("blue");
    }
  }
}
