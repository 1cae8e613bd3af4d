/** The app's data types. In the original the age group and the theme are
    string-literal unions; here each is an enumeration, and `AgeGroupKey` and
    `ThemeKey` give back the string each one is. */
module Types {

  datatype AgeGroup = Ages3To5 | Ages5To7 | Ages7To9 | Ages9To12

  datatype Theme = Fantasy | Adventure | Science | Friendship

  /** A preset hero. */
  datatype Character = Character(name: string, description: string, emoji: string)

  /** A story: `content` holds the paragraphs separated by line breaks,
      `imageUrl` the illustration of the latest part, `choices` what may happen
      next. */
  datatype Story = Story(id: string, title: string, content: string, imageUrl: string, choices: seq<string>)

  /** The configuration of an age group (`displayName` is the source's `label`; the narration pitch and rate are not
      part of this model). */
  datatype AgeGroupDetails = AgeGroupDetails(
    displayName: string,
    storyPromptModifier: string,
    illustrationStyle: string,
    color: string)

  /** The string an age group is, as it is persisted and written into prompts. */
  function AgeGroupKey(g: AgeGroup): string
  {
    match g
    case Ages3To5 => "3-5"
    case Ages5To7 => "5-7"
    case Ages7To9 => "7-9"
    case Ages9To12 => "9-12"
  }

  /** The string a theme is, as it is written into prompts. */
  function ThemeKey(t: Theme): string
  {
    match t
    case Fantasy => "fantasy"
    case Adventure => "adventure"
    case Science => "science"
    case Friendship => "friendship"
  }

  /** No two age groups share a string. */
  lemma AgeGroupKeyInjective(g: AgeGroup, h: AgeGroup)
    ensures AgeGroupKey(g) == AgeGroupKey(h) ==> g == h
  {
  }

  /** No two themes share a string. */
  lemma ThemeKeyInjective(t: Theme, u: Theme)
    ensures ThemeKey(t) == ThemeKey(u) ==> t == u
  {
  }
}
