/** The generation client: three operations against a hosted generative-AI
    backend. The backend itself is not modelled: each operation takes the
    backend's reply as a parameter and yields the request it sends together
    with what it returns. Text operations fail hard, with one generic error for
    every kind of failure; the image operation never fails and falls back to a
    placeholder picture. */
module GeminiService {
  import opened Results
  import opened Types
  import opened Constants
  import Js

  /** The fields of the parsed JSON reply that the client reads. A field the
      reply lacks (or holds as `null`) is `None`. */
  datatype StoryFields = StoryFields(
    title: Option<string>,
    content: Option<string>,
    illustrationPrompt: Option<string>,
    choices: Option<seq<string>>)

  /** What the text backend gave back: the transport call failed, the text did
      not parse as a JSON object, or it parsed. */
  datatype TextReply = TransportFailure | Unparseable | Parsed(fields: StoryFields)

  /** One image of a response: its `imageBytes` (base64) may be missing. */
  datatype ImageData = ImageData(imageBytes: Option<string>)

  /** One entry of `generatedImages`: its `image` may be missing. */
  datatype GeneratedImage = GeneratedImage(image: Option<ImageData>)

  /** What the image backend gave back: the call failed, or a response whose
      `generatedImages` may be missing. */
  datatype ImageReply = ImageFailure | ImageResponse(generatedImages: Option<seq<GeneratedImage>>)

  /** The beginning of a story, as `generateStory` returns it. */
  datatype StoryOpening = StoryOpening(title: string, content: string, illustrationPrompt: string, choices: seq<string>)

  /** The next part of a story, as `continueStory` returns it. */
  datatype StoryPart = StoryPart(content: string, illustrationPrompt: string, choices: seq<string>)

  /** The image operation: the prompt sent and the URL returned. */
  datatype ImageCall = ImageCall(prompt: string, url: string)

  /** A request sent to the backend. */
  datatype Request = TextRequest(prompt: string) | ImageRequest(prompt: string)

  const GENERATE_FAILED: string := "Failed to generate story. Please try again."
  const CONTINUE_FAILED: string := "Failed to continue story. Please try again."

  /** JavaScript truthiness of an optional string field: present and non-empty. */
  predicate TruthyString(field: Option<string>)
  {
    field.Some? && field.value != ""
  }

  /** JavaScript truthiness of an optional array field: an array is truthy even
      when empty, so only its absence is falsy. */
  predicate TruthyArray(field: Option<seq<string>>)
  {
    field.Some?
  }

  // ---------------------------------------------------------------------------
  // Prompts

  const STORY_INTRO: string := "\n    You are an expert storyteller for children. Your task is to start a delightful and age-appropriate story.\n\n    **Story requirements:**\n    - **Main Character:** "
  const STORY_AGE: string := ".\n    - **Target Age Group:** "
  const STORY_THEME: string := " years old.\n    - **Theme:** "
  const SAFETY_RULE: string := "No scary or violent content."
  const STORY_TONE: string := ".\n    - **Tone:** Positive, engaging, and safe for children. " + SAFETY_RULE + "\n    - **Language Style:** "
  const STORY_OUTRO: string := "\n    - **Output:** Create just the beginning of a story. It must end at a point where the character has to make a decision. Then, provide three possible choices for what happens next.\n    \n    Ensure the output is a valid JSON object matching the provided schema.\n  "

  /** The instruction that asks for the beginning of a story. */
  function StoryPrompt(g: AgeGroup, theme: Theme, character: string): string
  {
    Js.Interpolate(
      [STORY_INTRO, STORY_AGE, STORY_THEME, STORY_TONE, STORY_OUTRO],
      [character, AgeGroupKey(g), ThemeKey(theme), StoryPromptModifier(g)])
  }

  const CONTINUE_INTRO: string := "\n    You are an expert storyteller for children, continuing a story.\n\n    **Story so far:**\n    "
  const CONTINUE_PATH: string := "\n\n    **The user chose this path:** \""
  const CONTINUE_TASK: string := "\"\n\n    **Your Task:**\n    - Write the next part of the story, following the chosen path.\n    - Keep the tone and language consistent with the age group: "
  const CONTINUE_STYLE: string := " ("
  const CONTINUE_OUTRO: string := ").\n    - The story part should be of a similar length to the previous parts.\n    - End the new part at another interesting decision point.\n    - Provide three new, distinct choices for what can happen next.\n\n    Ensure the output is a valid JSON object matching the provided schema.\n  "

  /** The instruction that asks for the next part of a story. */
  function ContinuePrompt(previousContent: string, chosenPath: string, g: AgeGroup): string
  {
    Js.Interpolate(
      [CONTINUE_INTRO, CONTINUE_PATH, CONTINUE_TASK, CONTINUE_STYLE, CONTINUE_OUTRO],
      [previousContent, chosenPath, AgeGroupKey(g), StoryPromptModifier(g)])
  }

  const IMAGE_SAFETY: string := ", --no scary --no violence --child-friendly"

  /** The prompt sent to the image backend. */
  function ImagePrompt(prompt: string, g: AgeGroup): string
  {
    Js.Interpolate(["", ", ", IMAGE_SAFETY], [prompt, IllustrationStyle(g)])
  }

  /** The opening instruction names the hero, the age group, the theme, the
      age group's language guidance and the safety rule. */
  lemma StoryPromptMentions(g: AgeGroup, theme: Theme, character: string)
    ensures var p := StoryPrompt(g, theme, character);
      && Js.Contains(p, character) && Js.Contains(p, AgeGroupKey(g)) && Js.Contains(p, ThemeKey(theme))
      && Js.Contains(p, StoryPromptModifier(g)) && Js.Contains(p, SAFETY_RULE)
  {
    var fixed := [STORY_INTRO, STORY_AGE, STORY_THEME, STORY_TONE, STORY_OUTRO];
    var values := [character, AgeGroupKey(g), ThemeKey(theme), StoryPromptModifier(g)];
    Js.InterpolateContainsValue(fixed, values, 0);
    Js.InterpolateContainsValue(fixed, values, 1);
    Js.InterpolateContainsValue(fixed, values, 2);
    Js.InterpolateContainsValue(fixed, values, 3);
    Js.InterpolateContainsFixed(fixed, values, 3);
    Js.ContainsPart(".\n    - **Tone:** Positive, engaging, and safe for children. ", SAFETY_RULE, "\n    - **Language Style:** ");
    Js.ContainsTransitive(Js.Interpolate(fixed, values), STORY_TONE, SAFETY_RULE);
  }

  /** The continuation instruction carries the whole story so far, the chosen
      path, and the age group with its language guidance. */
  lemma ContinuePromptMentions(previousContent: string, chosenPath: string, g: AgeGroup)
    ensures var p := ContinuePrompt(previousContent, chosenPath, g);
      && Js.Contains(p, previousContent) && Js.Contains(p, chosenPath)
      && Js.Contains(p, AgeGroupKey(g)) && Js.Contains(p, StoryPromptModifier(g))
  {
    var fixed := [CONTINUE_INTRO, CONTINUE_PATH, CONTINUE_TASK, CONTINUE_STYLE, CONTINUE_OUTRO];
    var values := [previousContent, chosenPath, AgeGroupKey(g), StoryPromptModifier(g)];
    Js.InterpolateContainsValue(fixed, values, 0);
    Js.InterpolateContainsValue(fixed, values, 1);
    Js.InterpolateContainsValue(fixed, values, 2);
    Js.InterpolateContainsValue(fixed, values, 3);
  }

  /** The image prompt starts with the caller's prompt, carries the age group's
      illustration style, and ends with the safety suffix. */
  lemma ImagePromptShape(prompt: string, g: AgeGroup)
    ensures var p := ImagePrompt(prompt, g);
      && Js.StartsWith(p, prompt)
      && Js.Contains(p, IllustrationStyle(g))
      && |IMAGE_SAFETY| <= |p| && p[|p| - |IMAGE_SAFETY|..] == IMAGE_SAFETY
  {
    var fixed := ["", ", ", IMAGE_SAFETY];
    var values := [prompt, IllustrationStyle(g)];
    Js.InterpolateContainsValue(fixed, values, 1);
    Js.InterpolateEndsWith(fixed, values);
    assert Js.Interpolate(fixed, values) == "" + prompt + Js.Interpolate(fixed[1..], values[1..]);
  }

  // ---------------------------------------------------------------------------
  // Reply checks

  /** The check `generateStory` applies to the parsed reply. Every failure, of
      the transport, of parsing or of the check, becomes the one generic error. */
  function CheckOpening(reply: TextReply): (r: Result<StoryOpening, string>)
    ensures r.Ok? <==>
      && reply.Parsed?
      && TruthyString(reply.fields.title) && TruthyString(reply.fields.content)
      && TruthyString(reply.fields.illustrationPrompt) && TruthyArray(reply.fields.choices)
    ensures r.Ok? ==>
      && reply.fields.title == Some(r.value.title) && reply.fields.content == Some(r.value.content)
      && reply.fields.illustrationPrompt == Some(r.value.illustrationPrompt)
      && reply.fields.choices == Some(r.value.choices)
    ensures r.Err? ==> r.error == GENERATE_FAILED
  {
    match reply
    case Parsed(f) =>
      if TruthyString(f.title) && TruthyString(f.content) && TruthyString(f.illustrationPrompt) && TruthyArray(f.choices)
      then Ok(StoryOpening(f.title.value, f.content.value, f.illustrationPrompt.value, f.choices.value))
      else Err(GENERATE_FAILED)
    case _ => Err(GENERATE_FAILED)
  }

  /** The check `continueStory` applies: the same as for an opening, without
      the title. */
  function CheckPart(reply: TextReply): (r: Result<StoryPart, string>)
    ensures r.Ok? <==>
      && reply.Parsed?
      && TruthyString(reply.fields.content)
      && TruthyString(reply.fields.illustrationPrompt) && TruthyArray(reply.fields.choices)
    ensures r.Ok? ==>
      && reply.fields.content == Some(r.value.content)
      && reply.fields.illustrationPrompt == Some(r.value.illustrationPrompt)
      && reply.fields.choices == Some(r.value.choices)
    ensures r.Err? ==> r.error == CONTINUE_FAILED
  {
    match reply
    case Parsed(f) =>
      if TruthyString(f.content) && TruthyString(f.illustrationPrompt) && TruthyArray(f.choices)
      then Ok(StoryPart(f.content.value, f.illustrationPrompt.value, f.choices.value))
      else Err(CONTINUE_FAILED)
    case _ => Err(CONTINUE_FAILED)
  }

  /** A reply accepted as an opening is accepted as a continuation too, with the
      same content, illustration prompt and choices; the continuation check
      differs only in not looking at the title. */
  lemma PartCheckIsOpeningCheckWithoutTitle(reply: TextReply)
    ensures CheckOpening(reply).Ok? <==> CheckPart(reply).Ok? && TruthyString(reply.fields.title)
    ensures CheckOpening(reply).Ok? ==>
      var o := CheckOpening(reply).value;
      CheckPart(reply).value == StoryPart(o.content, o.illustrationPrompt, o.choices)
  {
  }

  /** An accepted reply never has an empty title, content or illustration
      prompt, but its list of choices may have any length, empty included. */
  lemma AcceptedOpeningShape(reply: TextReply)
    ensures CheckOpening(reply).Ok? ==>
      var o := CheckOpening(reply).value;
      o.title != "" && o.content != "" && o.illustrationPrompt != ""
    ensures CheckOpening(Parsed(StoryFields(Some("T"), Some("C"), Some("P"), Some([])))) ==
      Ok(StoryOpening("T", "C", "P", []))
  {
  }

  // ---------------------------------------------------------------------------
  // Images

  const DATA_URI_PREFIX: string := "data:image/jpeg;base64,"
  const PLACEHOLDER_HEAD: string := "https://via.placeholder.com/512/"
  const PLACEHOLDER_TAIL: string := "-300/FFFFFF?text=Image+Magic+Failed"

  /** `color.split('-')[1]`, which is `undefined` (and prints so) when the
      colour has no `-`. */
  function ColorSegment(color: string): string
  {
    var pieces := Js.Split(color, '-');
    if |pieces| > 1 then pieces[1] else "undefined"
  }

  /** The fallback picture for an age group. The code takes the colour name as
      `color.split('-')[1]`; `PlaceholderNamesColor` shows that this is
      `ColorName(g)`. */
  function Placeholder(g: AgeGroup): string
  {
    PLACEHOLDER_HEAD + ColorName(g) + PLACEHOLDER_TAIL
  }

  /** The reply holds at least one entry. */
  predicate HasEntry(reply: ImageReply)
  {
    reply.ImageResponse? && reply.generatedImages.Some? && |reply.generatedImages.value| > 0
  }

  /** The reply holds at least one entry and the first entry has an `image`.
      Reading `.image.imageBytes` of a first entry without `image` throws, and
      the operation's catch turns that into the placeholder. */
  predicate HasImage(reply: ImageReply)
  {
    HasEntry(reply) && reply.generatedImages.value[0].image.Some?
  }

  /** The first image's `imageBytes` as a template literal prints them:
      `undefined` when they are missing. */
  function FirstImageBytes(reply: ImageReply): string
    requires HasImage(reply)
  {
    var bytes := reply.generatedImages.value[0].image.value.imageBytes;
    if bytes.Some? then bytes.value else "undefined"
  }

  /** `generateImage`: sends the decorated prompt; returns the first image as a
      data URI, or the placeholder when the call failed or gave no image. */
  function GenerateImage(prompt: string, g: AgeGroup, reply: ImageReply): (call: ImageCall)
    ensures call.prompt == ImagePrompt(prompt, g)
  {
    var url :=
      if HasImage(reply) then DATA_URI_PREFIX + FirstImageBytes(reply)
      else Placeholder(g);
    ImageCall(ImagePrompt(prompt, g), url)
  }

  /** The placeholder is the URL the code builds from
      `color.split('-')[1]`, and that piece is one of the four colour names,
      never `undefined`. */
  lemma PlaceholderNamesColor(g: AgeGroup)
    ensures Placeholder(g) == PLACEHOLDER_HEAD + ColorSegment(Color(g)) + PLACEHOLDER_TAIL
    ensures ColorSegment(Color(g)) in ["green", "yellow", "orange", "blue"]
  {
    ColorShape(g);
  }

  /** The image operation never fails: it yields a data URI exactly when the
      backend's first entry has an image, carrying that image's bytes or
      `undefined` when they are missing; otherwise it yields the same
      placeholder whether the call failed, came back empty, or its first entry
      had no image. */
  lemma ImageOutcome(prompt: string, g: AgeGroup, reply: ImageReply)
    ensures var url := GenerateImage(prompt, g, reply).url;
      && (Js.StartsWith(url, DATA_URI_PREFIX) <==> HasImage(reply))
      && (HasImage(reply) ==> url == DATA_URI_PREFIX + FirstImageBytes(reply))
      && (HasImage(reply) && reply.generatedImages.value[0].image.value.imageBytes.Some? ==>
            url == DATA_URI_PREFIX + reply.generatedImages.value[0].image.value.imageBytes.value)
      && (HasImage(reply) && reply.generatedImages.value[0].image.value.imageBytes.None? ==>
            url == DATA_URI_PREFIX + "undefined")
      && (HasEntry(reply) && reply.generatedImages.value[0].image.None? ==> url == Placeholder(g))
      && (!HasImage(reply) ==> url == Placeholder(g) == GenerateImage(prompt, g, ImageFailure).url)
  {
    var url := GenerateImage(prompt, g, reply).url;
    if !HasImage(reply) {
      assert url[0] == PLACEHOLDER_HEAD[0] == 'h';
      assert DATA_URI_PREFIX[0] == 'd';
    }
  }
}
