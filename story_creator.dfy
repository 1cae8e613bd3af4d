/** The creation wizard: pick a theme, then a hero (a preset or one typed in),
    then generate the opening of a story and its first illustration. */
module StoryCreator {
  import opened Results
  import opened Types
  import opened Constants
  import opened GeminiService
  import Js

  datatype Step = ThemeStep | CharacterStep

  const GENERATION_FIZZLED: string := "Oops! The story magic fizzled. Please try again!"

  /** The hero handed to the prompt: the typed text when there is any, else the
      chosen preset's description. */
  function CharacterPrompt(customCharacter: string, selectedCharacter: string): string
  {
    if customCharacter != "" then customCharacter else selectedCharacter
  }

  /** With at most one of the two fields filled and at least one filled, the
      prompt is that field and is not empty. */
  lemma CharacterPromptIsTheFilledField(customCharacter: string, selectedCharacter: string)
    requires customCharacter == "" || selectedCharacter == ""
    requires customCharacter != "" || selectedCharacter != ""
    ensures CharacterPrompt(customCharacter, selectedCharacter) != ""
    ensures customCharacter != "" ==> CharacterPrompt(customCharacter, selectedCharacter) == customCharacter
    ensures selectedCharacter != "" ==> CharacterPrompt(customCharacter, selectedCharacter) == selectedCharacter
  {
  }

  /** A preset is shown as selected when its description is the selected one;
      at most one preset is. */
  lemma AtMostOnePresetHighlighted(selectedCharacter: string, i: int, j: int)
    requires 0 <= i < |CHARACTERS| && 0 <= j < |CHARACTERS|
    requires CHARACTERS[i].description == selectedCharacter == CHARACTERS[j].description
    ensures i == j
  {
    CharacterDescriptionsDistinct();
  }

  /** The story a generation produces, or the message shown when it fails: the
      text reply must pass the opening check; the illustration is then made
      from its prompt, and never fails. */
  function Generated(g: AgeGroup, id: string, reply: TextReply, imageReply: ImageReply): (r: Result<Story, string>)
    ensures r.Ok? <==> CheckOpening(reply).Ok?
    ensures r.Err? ==> r.error == GENERATION_FIZZLED
    ensures r.Ok? ==>
      var opening := CheckOpening(reply).value;
      && r.value.id == id
      && r.value.title == opening.title != ""
      && r.value.content == opening.content != ""
      && r.value.choices == opening.choices
      && r.value.imageUrl == GenerateImage(opening.illustrationPrompt, g, imageReply).url
  {
    match CheckOpening(reply)
    case Err(_) => Err(GENERATION_FIZZLED)
    case Ok(opening) =>
      var image := GenerateImage(opening.illustrationPrompt, g, imageReply);
      Ok(Story(id, opening.title, opening.content, image.url, opening.choices))
  }

  /** The message rotation: the entry after the first occurrence of `previous`,
      wrapping round; a message not in the list counts as position -1, so the
      rotation restarts at the first entry. */
  function NextMessage(messages: seq<string>, previous: string): (next: string)
    requires |messages| > 0
    ensures next in messages
  {
    var i := Js.IndexOf(messages, previous);
    messages[(i + 1) % |messages|]
  }

  /** No entry of the list occurs twice. */
  predicate Distinct(messages: seq<string>)
  {
    forall i, j :: 0 <= i < j < |messages| ==> messages[i] != messages[j]
  }

  /** The position after `i` in a list of `n` entries, wrapping round. */
  function Succ(i: int, n: int): int
  {
    if i + 1 == n then 0 else i + 1
  }

  /** In a list without repeats each entry is found at its own position, so the
      rotation steps from position `i` to the next one, wrapping round. */
  lemma NextMessageAt(messages: seq<string>, i: int)
    requires Distinct(messages) && 0 <= i < |messages|
    ensures NextMessage(messages, messages[i]) == messages[Succ(i, |messages|)]
  {
    var j := Js.IndexOf(messages, messages[i]);
    assert j == i;
    assert (i + 1) % |messages| == Succ(i, |messages|) by {
      if i + 1 < |messages| {
        ModUnique(i + 1, |messages|, 0, i + 1);
      } else {
        ModUnique(i + 1, |messages|, 1, 0);
      }
    }
  }

  /** The message shown after `ticks` rotations starting from `message`. */
  function Rotated(messages: seq<string>, message: string, ticks: nat): string
    requires |messages| > 0
  {
    if ticks == 0 then message else NextMessage(messages, Rotated(messages, message, ticks - 1))
  }

  /** The position reached from 0 after `ticks` steps round `n` positions. */
  function Position(ticks: nat, n: int): int
  {
    if ticks == 0 then 0 else Succ(Position(ticks - 1, n), n)
  }

  /** In a list without repeats, starting from the first entry, the rotation
      moves one position per tick. */
  lemma {:induction false} RotationFollowsPosition(messages: seq<string>, ticks: nat)
    requires |messages| > 0 && Distinct(messages)
    ensures 0 <= Position(ticks, |messages|) < |messages|
    ensures Rotated(messages, messages[0], ticks) == messages[Position(ticks, |messages|)]
  {
    if ticks > 0 {
      RotationFollowsPosition(messages, ticks - 1);
      NextMessageAt(messages, Position(ticks - 1, |messages|));
    }
  }

  /** Stepping round `n` positions `ticks` times from 0 lands on `ticks mod n`. */
  lemma {:induction false} PositionIsRemainder(ticks: nat, n: int)
    requires n > 0
    ensures Position(ticks, n) == ticks % n
  {
    if ticks > 0 {
      PositionIsRemainder(ticks - 1, n);
      var q, r := (ticks - 1) / n, (ticks - 1) % n;
      assert ticks - 1 == q * n + r;
      if r + 1 < n {
        ModUnique(ticks, n, q, r + 1);
      } else {
        assert ticks == (q + 1) * n + 0;
        ModUnique(ticks, n, q + 1, 0);
      }
    }
  }

  /** In a list without repeats, starting from the first entry, tick `k` shows
      entry `k mod n`: the rotation visits every entry in order and comes back
      to the start after `n` ticks. */
  lemma RotationCycles(messages: seq<string>, ticks: nat)
    requires |messages| > 0 && Distinct(messages)
    ensures Rotated(messages, messages[0], ticks) == messages[ticks % |messages|]
  {
    RotationFollowsPosition(messages, ticks);
    PositionIsRemainder(ticks, |messages|);
  }

  /** The loading screen shows message `k mod 6` at tick `k`. */
  lemma LoadingMessagesCycle(ticks: nat)
    ensures Rotated(LOADING_MESSAGES, LOADING_MESSAGES[0], ticks) == LOADING_MESSAGES[ticks % 6]
  {
    LoadingMessagesDistinct();
    RotationCycles(LOADING_MESSAGES, ticks);
  }

  /** The remainder of a division is the only one in range. */
  lemma ModUnique(x: int, n: int, a: int, b: int)
    requires n > 0 && 0 <= b < n && x == a * n + b
    ensures x % n == b
  {
    var a0, b0 := x / n, x % n;
    assert x == a0 * n + b0;
    var k := a - a0;
    assert k * n == b0 - b;
    if k > 0 {
      MulAtLeast(k, n);
    } else if k < 0 {
      MulAtLeast(-k, n);
    }
  }

  lemma {:induction false} MulAtLeast(k: nat, n: int)
    requires k >= 1 && n > 0
    ensures k * n >= n
  {
    if k > 1 {
      MulAtLeast(k - 1, n);
      assert k * n == (k - 1) * n + n;
    }
  }

  /** The wizard's state. */
  class Creator {
    /** The age group passed down by the app; it can change while the wizard
        stays on screen. */
    var ageGroup: AgeGroup
    var step: Step
    var selectedTheme: Option<Theme>
    var selectedCharacter: string
    var customCharacter: string
    var isLoading: bool
    var error: Option<string>
    var loadingMessage: string
    /** The backend requests made so far, in order. */
    var requests: seq<Request>
    /** The stories handed up to the app so far, in order. */
    var emitted: seq<Story>

    /** The preset and the typed hero are never both filled, and the loading
        message is one of the list. */
    predicate Valid()
      reads this
    {
      (selectedCharacter == "" || customCharacter == "") && loadingMessage in LOADING_MESSAGES
    }

    /** Generation may start: a theme is chosen and a hero is given. */
    predicate CanGenerate()
      reads this
    {
      selectedTheme.Some? && (selectedCharacter != "" || customCharacter != "")
    }

    /** The state a generation ends in leaves the selections alone. */
    predicate SelectionsUnchanged(step0: Step, theme0: Option<Theme>, selected0: string, custom0: string, message0: string)
      reads this
    {
      step == step0 && selectedTheme == theme0 && selectedCharacter == selected0
      && customCharacter == custom0 && loadingMessage == message0
    }

    constructor(g: AgeGroup)
      ensures Valid() && ageGroup == g
      ensures step == ThemeStep && selectedTheme == None
      ensures selectedCharacter == "" && customCharacter == ""
      ensures !isLoading && error == None && loadingMessage == LOADING_MESSAGES[0]
      ensures requests == [] && emitted == []
    {
      ageGroup := g;
      step := ThemeStep;
      selectedTheme := None;
      selectedCharacter := "";
      customCharacter := "";
      isLoading := false;
      error := None;
      loadingMessage := LOADING_MESSAGES[0];
      requests := [];
      emitted := [];
    }

    /** Choosing a theme records it and moves on to the hero step. */
    method HandleThemeSelect(theme: Theme)
      requires Valid()
      modifies this
      ensures Valid()
      ensures selectedTheme == Some(theme) && step == CharacterStep
      ensures selectedCharacter == old(selectedCharacter) && customCharacter == old(customCharacter)
      ensures isLoading == old(isLoading) && error == old(error) && loadingMessage == old(loadingMessage)
      ensures requests == old(requests) && emitted == old(emitted) && ageGroup == old(ageGroup)
    {
      selectedTheme := Some(theme);
      step := CharacterStep;
    }

    /** The Back button returns to the theme step and keeps every selection. */
    method Back()
      requires Valid()
      modifies this
      ensures Valid()
      ensures step == ThemeStep
      ensures selectedTheme == old(selectedTheme)
      ensures selectedCharacter == old(selectedCharacter) && customCharacter == old(customCharacter)
      ensures isLoading == old(isLoading) && error == old(error) && loadingMessage == old(loadingMessage)
      ensures requests == old(requests) && emitted == old(emitted) && ageGroup == old(ageGroup)
    {
      step := ThemeStep;
    }

    /** Choosing a preset hero clears the typed one. */
    method HandleCharacterSelect(description: string)
      requires Valid()
      modifies this
      ensures Valid()
      ensures selectedCharacter == description && customCharacter == ""
      ensures step == old(step) && selectedTheme == old(selectedTheme)
      ensures isLoading == old(isLoading) && error == old(error) && loadingMessage == old(loadingMessage)
      ensures requests == old(requests) && emitted == old(emitted) && ageGroup == old(ageGroup)
    {
      selectedCharacter := description;
      customCharacter := "";
    }

    /** Typing a hero clears the chosen preset. */
    method HandleCustomCharacterChange(text: string)
      requires Valid()
      modifies this
      ensures Valid()
      ensures customCharacter == text && selectedCharacter == ""
      ensures step == old(step) && selectedTheme == old(selectedTheme)
      ensures isLoading == old(isLoading) && error == old(error) && loadingMessage == old(loadingMessage)
      ensures requests == old(requests) && emitted == old(emitted) && ageGroup == old(ageGroup)
    {
      customCharacter := text;
      selectedCharacter := "";
    }

    /** The first half of `handleGenerateStory`, up to the text request: does
        nothing without a theme and a hero; otherwise shows the loading screen,
        clears the error and asks for the opening. */
    method StartGeneration() returns (started: bool)
      requires Valid()
      modifies this
      ensures Valid()
      ensures started == old(CanGenerate())
      ensures !started ==> unchanged(this)
      ensures started ==>
        && isLoading && error == None
        && requests == old(requests)
          + [TextRequest(StoryPrompt(ageGroup, old(selectedTheme).value, CharacterPrompt(old(customCharacter), old(selectedCharacter))))]
        && emitted == old(emitted)
        && SelectionsUnchanged(old(step), old(selectedTheme), old(selectedCharacter), old(customCharacter), old(loadingMessage))
      ensures ageGroup == old(ageGroup)
    {
      if !CanGenerate() {
        return false;
      }
      isLoading := true;
      error := None;
      var characterPrompt := CharacterPrompt(customCharacter, selectedCharacter);
      requests := requests + [TextRequest(StoryPrompt(ageGroup, selectedTheme.value, characterPrompt))];
      return true;
    }

    /** The second half, once the text reply (and, if asked for, the image reply)
        is in: on an accepted opening, asks for the illustration and hands up
        exactly one story with the given id; otherwise shows the fizzle message
        and hands up nothing. The loading screen ends either way. `g` is the age
        group the handler saw when it started, which a change of the age group
        in the meantime does not affect. */
    method FinishGeneration(g: AgeGroup, id: string, reply: TextReply, imageReply: ImageReply)
      requires Valid() && isLoading
      modifies this
      ensures Valid()
      ensures !isLoading && ageGroup == old(ageGroup)
      ensures Generated(g, id, reply, imageReply).Ok? ==>
        && requests == old(requests) + [ImageRequest(ImagePrompt(CheckOpening(reply).value.illustrationPrompt, g))]
        && emitted == old(emitted) + [Generated(g, id, reply, imageReply).value]
        && error == old(error)
      ensures Generated(g, id, reply, imageReply).Err? ==>
        && requests == old(requests)
        && emitted == old(emitted)
        && error == Some(Generated(g, id, reply, imageReply).error)
      ensures SelectionsUnchanged(old(step), old(selectedTheme), old(selectedCharacter), old(customCharacter), old(loadingMessage))
    {
      var outcome := Generated(g, id, reply, imageReply);
      if outcome.Ok? {
        requests := requests + [ImageRequest(ImagePrompt(CheckOpening(reply).value.illustrationPrompt, g))];
        emitted := emitted + [outcome.value];
      } else {
        error := Some(outcome.error);
      }
      isLoading := false;
    }

    /** `handleGenerateStory` from start to end, with the backend's replies as
        inputs: the text request goes out before the image request, and the
        wizard is idle again afterwards. */
    method HandleGenerateStory(id: string, reply: TextReply, imageReply: ImageReply)
      requires Valid() && !isLoading
      modifies this
      ensures Valid() && !isLoading && ageGroup == old(ageGroup)
      ensures SelectionsUnchanged(old(step), old(selectedTheme), old(selectedCharacter), old(customCharacter), old(loadingMessage))
      ensures !old(CanGenerate()) ==> unchanged(this)
      ensures old(CanGenerate()) ==>
        var prompt := StoryPrompt(ageGroup, old(selectedTheme).value, CharacterPrompt(old(customCharacter), old(selectedCharacter)));
        match Generated(ageGroup, id, reply, imageReply)
        case Ok(story) =>
          && requests == old(requests) + [TextRequest(prompt), ImageRequest(ImagePrompt(CheckOpening(reply).value.illustrationPrompt, ageGroup))]
          && emitted == old(emitted) + [story]
          && error == None
        case Err(message) =>
          && requests == old(requests) + [TextRequest(prompt)]
          && emitted == old(emitted)
          && error == Some(message)
    {
      var started := StartGeneration();
      if started {
        FinishGeneration(ageGroup, id, reply, imageReply);
      }
    }

    /** The app passes down a new age group: the wizard stays on screen with
        its step, selections, loading state and message, and the next
        generation uses the new age group. */
    method AgeGroupChanged(g: AgeGroup)
      requires Valid()
      modifies this
      ensures Valid()
      ensures ageGroup == g
      ensures SelectionsUnchanged(old(step), old(selectedTheme), old(selectedCharacter), old(customCharacter), old(loadingMessage))
      ensures isLoading == old(isLoading) && error == old(error)
      ensures requests == old(requests) && emitted == old(emitted)
    {
      ageGroup := g;
    }

    /** One tick of the loading-message timer, which runs while loading. */
    method Tick()
      requires Valid() && isLoading
      modifies this
      ensures Valid()
      ensures loadingMessage == NextMessage(LOADING_MESSAGES, old(loadingMessage))
      ensures step == old(step) && selectedTheme == old(selectedTheme)
      ensures selectedCharacter == old(selectedCharacter) && customCharacter == old(customCharacter)
      ensures isLoading == old(isLoading) && error == old(error)
      ensures requests == old(requests) && emitted == old(emitted) && ageGroup == old(ageGroup)
    {
      loadingMessage := NextMessage(LOADING_MESSAGES, loadingMessage);
    }
  }
}
