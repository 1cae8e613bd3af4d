/** The story viewer: shows the current story as paragraphs, reads it aloud,
    continues it along a chosen path, and hands up a copy for saving. */
module StoryViewer {
  import opened Results
  import opened Types
  import opened GeminiService
  import opened SpeechSynthesis
  import Js

  const CRYSTAL_BALL_CLOUDY: string := "The crystal ball is cloudy... couldn't see what happens next. Try another path!"

  /** What separates a continuation from the story before it. */
  const PART_BREAK: string := "\n\n"

  /** The lines of `lines` that are not blank, in order. */
  function NonBlank(lines: seq<string>): (kept: seq<string>)
    ensures |kept| <= |lines|
    ensures forall k :: 0 <= k < |kept| ==> !Js.IsBlank(kept[k])
  {
    if lines == [] then []
    else if Js.IsBlank(lines[0]) then NonBlank(lines[1..])
    else [lines[0]] + NonBlank(lines[1..])
  }

  /** The paragraphs shown: each line of the content whose trimmed form is not
      empty, untrimmed, in order. */
  function Paragraphs(content: string): seq<string>
  {
    NonBlank(Js.Split(content, '\n'))
  }

  /** Filtering distributes over concatenation. */
  lemma {:induction false} NonBlankAppend(xs: seq<string>, ys: seq<string>)
    ensures NonBlank(xs + ys) == NonBlank(xs) + NonBlank(ys)
  {
    if xs == [] {
      assert xs + ys == ys;
    } else {
      assert (xs + ys)[0] == xs[0];
      assert (xs + ys)[1..] == xs[1..] + ys;
      NonBlankAppend(xs[1..], ys);
    }
  }

  /** A paragraph is shown exactly when it is a line of the content that is not
      blank; no paragraph holds a line break; and a paragraph is shown exactly
      when its `trim()` is not empty. */
  lemma {:induction false} ParagraphsAreNonBlankLines(lines: seq<string>, p: string)
    ensures p in NonBlank(lines) <==> p in lines && Js.Trim(p) != ""
  {
    Js.TrimEmpty(p);
    if lines != [] {
      ParagraphsAreNonBlankLines(lines[1..], p);
      assert lines == [lines[0]] + lines[1..];
    }
  }

  lemma ParagraphsSpec(content: string, p: string)
    ensures p in Paragraphs(content) <==> p in Js.Split(content, '\n') && Js.Trim(p) != ""
    ensures p in Paragraphs(content) ==> '\n' !in p
  {
    ParagraphsAreNonBlankLines(Js.Split(content, '\n'), p);
  }

  /** Appending a part with a blank line between shows the old paragraphs
      followed by the new ones. */
  lemma ParagraphsAppend(before: string, after: string)
    ensures Paragraphs(before + PART_BREAK + after) == Paragraphs(before) + Paragraphs(after)
  {
    assert before + PART_BREAK + after == before + ['\n'] + ([] + ['\n'] + after);
    Js.SplitAround(before, '\n', [] + ['\n'] + after);
    Js.SplitAround([], '\n', after);
    assert Js.Split([], '\n') == [""];
    NonBlankAppend(Js.Split(before, '\n'), [""] + Js.Split(after, '\n'));
    NonBlankAppend([""], Js.Split(after, '\n'));
    assert Js.IsBlank("");
  }

  /** The story after a successful continuation: the same story with the new
      part appended after a blank line, and its picture and choices replaced. */
  function AppendPart(previous: Story, part: StoryPart, imageUrl: string): (next: Story)
    ensures next.id == previous.id && next.title == previous.title
    ensures Js.StartsWith(next.content, previous.content)
    ensures Paragraphs(next.content) == Paragraphs(previous.content) + Paragraphs(part.content)
    ensures next.imageUrl == imageUrl && next.choices == part.choices
  {
    ParagraphsAppend(previous.content, part.content);
    previous.(content := previous.content + PART_BREAK + part.content, imageUrl := imageUrl, choices := part.choices)
  }

  /** The copy handed up for saving: the story without its choices. */
  function ForSaving(story: Story): Story
  {
    story.(choices := [])
  }

  /** The choice buttons show when the story may be continued, has choices, and
      no continuation is running. */
  predicate ChoicesPanelShown(isReadOnly: bool, story: Story, isContinuing: bool)
    ensures ChoicesPanelShown(isReadOnly, story, isContinuing) <==>
      !isReadOnly && !isContinuing && exists c :: c in story.choices
  {
    assert |story.choices| > 0 ==> story.choices[0] in story.choices;
    !isReadOnly && |story.choices| > 0 && !isContinuing
  }

  /** A saved copy differs from the story only in having no choices, saving it
      again changes nothing, and it never shows the choice buttons. */
  lemma ForSavingSpec(story: Story, isReadOnly: bool, isContinuing: bool)
    ensures var saved := ForSaving(story);
      && saved.id == story.id && saved.title == story.title
      && saved.content == story.content && saved.imageUrl == story.imageUrl
      && saved.choices == []
      && ForSaving(saved) == saved
      && !ChoicesPanelShown(isReadOnly, saved, isContinuing)
  {
  }

  /** The viewer's state; the narration hook is shared with the platform. */
  class Viewer {
    const ageGroup: AgeGroup
    const narrator: Narrator
    var currentStory: Story
    var isContinuing: bool
    var error: Option<string>
    /** The backend requests made so far, in order. */
    var requests: seq<Request>

    constructor(story: Story, g: AgeGroup, narration: Narrator)
      ensures ageGroup == g && narrator == narration
      ensures currentStory == story && !isContinuing && error == None && requests == []
    {
      ageGroup := g;
      narrator := narration;
      currentStory := story;
      isContinuing := false;
      error := None;
      requests := [];
    }

    /** The Read/Stop button: stops the narration when speaking, and otherwise
        reads out the story's content. */
    method HandleToggleSpeech()
      modifies narrator
      ensures narrator.voices == old(narrator.voices)
      ensures old(narrator.isSpeaking) ==>
        !narrator.isSpeaking && narrator.platform == old(narrator.platform) + [PlatformCancel]
      ensures !old(narrator.isSpeaking) ==>
        !narrator.isSpeaking
        && narrator.platform == old(narrator.platform) + [PlatformSpeak(currentStory.content, ChooseVoice(narrator.voices))]
    {
      if narrator.isSpeaking {
        narrator.Cancel();
      } else {
        narrator.Speak(currentStory.content);
      }
    }

    /** The first half of `handleChoice`, up to the text request: marks the
        continuation as running, clears the error, stops the narration, and asks
        for the next part of the story along the chosen path. */
    method StartContinuation(choice: string)
      modifies this, narrator
      ensures isContinuing && error == None
      ensures currentStory == old(currentStory)
      ensures requests == old(requests) + [TextRequest(ContinuePrompt(old(currentStory).content, choice, ageGroup))]
      ensures !narrator.isSpeaking && narrator.platform == old(narrator.platform) + [PlatformCancel]
      ensures narrator.voices == old(narrator.voices)
    {
      isContinuing := true;
      error := None;
      narrator.Cancel();
      requests := requests + [TextRequest(ContinuePrompt(currentStory.content, choice, ageGroup))];
    }

    /** The second half, once the text reply (and, if asked for, the image reply)
        is in: an accepted part is appended with its new picture; otherwise the
        story is left as it was and the crystal-ball message shows. The
        continuation ends either way. */
    method FinishContinuation(reply: TextReply, imageReply: ImageReply)
      requires isContinuing
      modifies this
      ensures !isContinuing
      ensures match CheckPart(reply)
        case Ok(part) =>
          var image := GenerateImage(part.illustrationPrompt, ageGroup, imageReply);
          && requests == old(requests) + [ImageRequest(image.prompt)]
          && currentStory == AppendPart(old(currentStory), part, image.url)
          && error == old(error)
        case Err(_) =>
          && requests == old(requests)
          && currentStory == old(currentStory)
          && error == Some(CRYSTAL_BALL_CLOUDY)
    {
      var part := CheckPart(reply);
      if part.Ok? {
        var image := GenerateImage(part.value.illustrationPrompt, ageGroup, imageReply);
        requests := requests + [ImageRequest(image.prompt)];
        currentStory := AppendPart(currentStory, part.value, image.url);
      } else {
        error := Some(CRYSTAL_BALL_CLOUDY);
      }
      isContinuing := false;
    }

    /** `handleChoice` from start to end, with the backend's replies as inputs. */
    method HandleChoice(choice: string, reply: TextReply, imageReply: ImageReply)
      modifies this, narrator
      ensures !isContinuing
      ensures !narrator.isSpeaking && narrator.platform == old(narrator.platform) + [PlatformCancel]
      ensures narrator.voices == old(narrator.voices)
      ensures var prompt := ContinuePrompt(old(currentStory).content, choice, ageGroup);
        match CheckPart(reply)
        case Ok(part) =>
          var image := GenerateImage(part.illustrationPrompt, ageGroup, imageReply);
          && requests == old(requests) + [TextRequest(prompt), ImageRequest(image.prompt)]
          && currentStory == AppendPart(old(currentStory), part, image.url)
          && error == None
        case Err(_) =>
          && requests == old(requests) + [TextRequest(prompt)]
          && currentStory == old(currentStory)
          && error == Some(CRYSTAL_BALL_CLOUDY)
    {
      StartContinuation(choice);
      FinishContinuation(reply, imageReply);
    }

    /** The Save button's payload: the current story without its choices. */
    method Save() returns (saved: Story)
      ensures saved.id == currentStory.id && saved.title == currentStory.title
      ensures saved.content == currentStory.content && saved.imageUrl == currentStory.imageUrl
      ensures saved.choices == []
    {
      saved := ForSaving(currentStory);
    }
  }
}
