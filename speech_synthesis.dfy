/** The narration hook: a two-state machine (idle, speaking) over the platform's
    speech synthesis, and the rule that picks a voice. The platform is not
    modelled; the calls the hook makes on it are recorded in order, and the
    platform's start, end and error events are methods the platform calls. */
module SpeechSynthesis {
  import opened Results
  import Js

  /** A platform voice, as far as voice selection looks at it. */
  datatype Voice = Voice(name: string, lang: string)

  /** A call made on the platform's speech synthesis. */
  datatype PlatformCall = PlatformCancel | PlatformSpeak(text: string, voice: Option<Voice>)

  /** The named high-quality voices, most preferred first. */
  const PREFERRED_VOICES: seq<string> := [
    "Microsoft Zira Desktop - English (United States)",
    "Google US English",
    "Samantha"
  ]

  /** The tests voice selection applies to a voice. */
  datatype Criterion = NamedExactly(name: string) | EnglishFemale | LangPrefix(prefix: string)

  predicate Matches(c: Criterion, v: Voice)
  {
    match c
    case NamedExactly(n) => v.name == n
    case EnglishFemale => Js.StartsWith(v.lang, "en") && Js.Contains(v.name, "Female")
    case LangPrefix(p) => Js.StartsWith(v.lang, p)
  }

  /** `i` is the first position whose voice passes the test. */
  predicate IsFirstMatch(voices: seq<Voice>, c: Criterion, i: int)
  {
    0 <= i < |voices| && Matches(c, voices[i]) && forall j :: 0 <= j < i ==> !Matches(c, voices[j])
  }

  /** The position `voices.find` stops at, or -1. */
  function FindIndex(voices: seq<Voice>, c: Criterion): (i: int)
    ensures -1 <= i < |voices|
    ensures i == -1 <==> forall v :: v in voices ==> !Matches(c, v)
    ensures i != -1 ==> IsFirstMatch(voices, c, i)
  {
    if voices == [] then -1
    else if Matches(c, voices[0]) then 0
    else
      var j := FindIndex(voices[1..], c);
      assert forall v :: v in voices ==> v == voices[0] || v in voices[1..];
      if j == -1 then -1
      else
        assert forall k :: 1 <= k <= j ==> voices[k] == voices[1..][k - 1];
        j + 1
  }

  /** `voices.find(v => test(v))`: the first voice that passes, if any. */
  function Find(voices: seq<Voice>, c: Criterion): Option<Voice>
  {
    var i := FindIndex(voices, c);
    if i == -1 then None else Some(voices[i])
  }

  /** Some voice has exactly this name. */
  predicate HasVoiceNamed(voices: seq<Voice>, name: string)
  {
    exists v :: v in voices && v.name == name
  }

  /** The first name of `names`, in order, that some voice has; the first voice
      with that name. */
  function FirstPreferred(names: seq<string>, voices: seq<Voice>): Option<Voice>
  {
    if names == [] then None
    else
      var v := Find(voices, NamedExactly(names[0]));
      if v.Some? then v else FirstPreferred(names[1..], voices)
  }

  /** The voice `speak` hands to the platform: a preferred voice if one is
      installed, else an English voice with `Female` in its name, else an
      `en-US` voice, else any English voice, else none. */
  function ChooseVoice(voices: seq<Voice>): Option<Voice>
  {
    var preferred := FirstPreferred(PREFERRED_VOICES, voices);
    if preferred.Some? then preferred
    else
      var female := Find(voices, EnglishFemale);
      if female.Some? then female
      else
        var american := Find(voices, LangPrefix("en-US"));
        if american.Some? then american
        else Find(voices, LangPrefix("en"))
  }

  /** `k` is the position in `names` of the first name some voice has. */
  predicate FirstPresent(names: seq<string>, voices: seq<Voice>, k: int)
  {
    0 <= k < |names| && HasVoiceNamed(voices, names[k])
    && forall j :: 0 <= j < k ==> !HasVoiceNamed(voices, names[j])
  }

  lemma FindNamed(voices: seq<Voice>, name: string)
    ensures Find(voices, NamedExactly(name)).Some? <==> HasVoiceNamed(voices, name)
    ensures Find(voices, NamedExactly(name)).Some? ==>
      Find(voices, NamedExactly(name)).value in voices && Find(voices, NamedExactly(name)).value.name == name
  {
    var i := FindIndex(voices, NamedExactly(name));
    if i == -1 {
      assert forall v :: v in voices ==> !Matches(NamedExactly(name), v);
    } else {
      assert Matches(NamedExactly(name), voices[i]);
    }
  }

  /** The preferred-name search returns the first voice named by the earliest
      name that any voice has, and nothing when no name is present. */
  lemma {:induction false} FirstPreferredSpec(names: seq<string>, voices: seq<Voice>)
    ensures FirstPreferred(names, voices).None? <==> forall k :: 0 <= k < |names| ==> !HasVoiceNamed(voices, names[k])
    ensures FirstPreferred(names, voices).Some? ==>
      exists k :: FirstPresent(names, voices, k) && FirstPreferred(names, voices) == Find(voices, NamedExactly(names[k]))
  {
    if names != [] {
      FindNamed(voices, names[0]);
      FirstPreferredSpec(names[1..], voices);
      if Find(voices, NamedExactly(names[0])).None? {
        assert forall k :: 1 <= k < |names| ==> names[k] == names[1..][k - 1];
        if FirstPreferred(names, voices).Some? {
          var k :| FirstPresent(names[1..], voices, k) && FirstPreferred(names[1..], voices) == Find(voices, NamedExactly(names[1..][k]));
          assert FirstPresent(names, voices, k + 1);
        }
      } else {
        assert FirstPresent(names, voices, 0);
      }
    }
  }

  lemma FindSpec(voices: seq<Voice>, c: Criterion)
    ensures Find(voices, c).None? <==> forall v :: v in voices ==> !Matches(c, v)
    ensures Find(voices, c).Some? ==> Find(voices, c).value in voices && Matches(c, Find(voices, c).value)
  {
  }

  /** Without a preferred voice, selection falls back tier by tier: the first
      English female voice if there is one; else the first `en-US` voice if
      there is one; else the first English voice if there is one; else none. */
  ghost predicate FallbackTier(voices: seq<Voice>, chosen: Option<Voice>)
  {
    if exists v :: v in voices && Matches(EnglishFemale, v) then
      exists i :: IsFirstMatch(voices, EnglishFemale, i) && chosen == Some(voices[i])
    else if exists v :: v in voices && Matches(LangPrefix("en-US"), v) then
      exists i :: IsFirstMatch(voices, LangPrefix("en-US"), i) && chosen == Some(voices[i])
    else if exists v :: v in voices && Matches(LangPrefix("en"), v) then
      exists i :: IsFirstMatch(voices, LangPrefix("en"), i) && chosen == Some(voices[i])
    else chosen == None
  }

  /** Voice selection, stated without the search order of the code: the voice
      comes from the list; a preferred name wins whenever one is present, the
      earliest such name first; otherwise the voice is English, and female when
      an English female voice exists; without a preferred name the fallback
      tiers apply in order, each taking its first matching voice; and there is
      no voice exactly when no preferred name is present and no voice's
      language starts with `en`. */
  lemma ChooseVoiceSpec(voices: seq<Voice>)
    ensures ChooseVoice(voices).Some? ==> ChooseVoice(voices).value in voices
    ensures (exists k :: 0 <= k < |PREFERRED_VOICES| && HasVoiceNamed(voices, PREFERRED_VOICES[k])) ==>
      exists k :: FirstPresent(PREFERRED_VOICES, voices, k)
        && ChooseVoice(voices).Some? && ChooseVoice(voices).value.name == PREFERRED_VOICES[k]
    ensures (forall k :: 0 <= k < |PREFERRED_VOICES| ==> !HasVoiceNamed(voices, PREFERRED_VOICES[k])) ==>
      && (ChooseVoice(voices).Some? ==> Js.StartsWith(ChooseVoice(voices).value.lang, "en"))
      && ((exists v :: v in voices && Matches(EnglishFemale, v)) ==>
            ChooseVoice(voices).Some? && Matches(EnglishFemale, ChooseVoice(voices).value))
    ensures ChooseVoice(voices).None? <==>
      && (forall k :: 0 <= k < |PREFERRED_VOICES| ==> !HasVoiceNamed(voices, PREFERRED_VOICES[k]))
      && (forall v :: v in voices ==> !Js.StartsWith(v.lang, "en"))
    ensures (forall k :: 0 <= k < |PREFERRED_VOICES| ==> !HasVoiceNamed(voices, PREFERRED_VOICES[k])) ==>
      FallbackTier(voices, ChooseVoice(voices))
  {
    FirstPreferredSpec(PREFERRED_VOICES, voices);
    FindSpec(voices, EnglishFemale);
    FindSpec(voices, LangPrefix("en-US"));
    FindSpec(voices, LangPrefix("en"));
    if FirstPreferred(PREFERRED_VOICES, voices).Some? {
      var k :| FirstPresent(PREFERRED_VOICES, voices, k)
        && FirstPreferred(PREFERRED_VOICES, voices) == Find(voices, NamedExactly(PREFERRED_VOICES[k]));
      FindNamed(voices, PREFERRED_VOICES[k]);
    } else {
      // An `en-US` voice is an English voice.
      forall v | v in voices && Matches(LangPrefix("en-US"), v) ensures Js.StartsWith(v.lang, "en") {
        assert "en" <= "en-US";
      }
    }
  }

  /** The selection loop of `speak`: tries each preferred name in turn, stopping
      at the first one found, then falls back through the English tests. */
  method SelectVoice(voices: seq<Voice>) returns (selected: Option<Voice>)
    ensures selected == ChooseVoice(voices)
  {
    selected := None;
    var i := 0;
    while i < |PREFERRED_VOICES|
      invariant 0 <= i <= |PREFERRED_VOICES|
      invariant selected.None?
      invariant FirstPreferred(PREFERRED_VOICES, voices) == FirstPreferred(PREFERRED_VOICES[i..], voices)
    {
      selected := Find(voices, NamedExactly(PREFERRED_VOICES[i]));
      if selected.Some? {
        break;
      }
      assert PREFERRED_VOICES[i..][1..] == PREFERRED_VOICES[i + 1..];
      i := i + 1;
    }
    if selected.None? {
      selected := Find(voices, EnglishFemale);
      if selected.None? {
        selected := Find(voices, LangPrefix("en-US"));
        if selected.None? {
          selected := Find(voices, LangPrefix("en"));
        }
      }
    }
  }

  /** The state of the narration hook: whether an utterance is being spoken,
      the voices the platform offers, and the calls made on the platform so far. */
  class Narrator {
    var isSpeaking: bool
    var voices: seq<Voice>
    var platform: seq<PlatformCall>

    /** Mounting the hook: idle, with the voices the platform lists at that time. */
    constructor(available: seq<Voice>)
      ensures !isSpeaking && voices == available && platform == []
    {
      isSpeaking := false;
      voices := available;
      platform := [];
    }

    /** The platform's voice list changed. */
    method VoicesChanged(available: seq<Voice>)
      modifies this
      ensures voices == available
      ensures isSpeaking == old(isSpeaking) && platform == old(platform)
    {
      voices := available;
    }

    /** `speak`: cancels the utterance in flight when speaking, then hands the
      platform a new utterance with the selected voice. Becoming `speaking`
      waits for the platform's start event. */
    method Speak(text: string)
      modifies this
      ensures platform == old(platform)
        + (if old(isSpeaking) then [PlatformCancel] else [])
        + [PlatformSpeak(text, ChooseVoice(voices))]
      ensures isSpeaking == old(isSpeaking) && voices == old(voices)
    {
      if isSpeaking {
        platform := platform + [PlatformCancel];
      }
      var voice := SelectVoice(voices);
      platform := platform + [PlatformSpeak(text, voice)];
    }

    /** `cancel`: stops the platform and goes idle, whatever the state. */
    method Cancel()
      modifies this
      ensures !isSpeaking
      ensures platform == old(platform) + [PlatformCancel] && voices == old(voices)
    {
      platform := platform + [PlatformCancel];
      isSpeaking := false;
    }

    /** The utterance's start event. */
    method OnStart()
      modifies this
      ensures isSpeaking
      ensures platform == old(platform) && voices == old(voices)
    {
      isSpeaking := true;
    }

    /** The utterance's end event. */
    method OnEnd()
      modifies this
      ensures !isSpeaking
      ensures platform == old(platform) && voices == old(voices)
    {
      isSpeaking := false;
    }

    /** The utterance's error event. */
    method OnError()
      modifies this
      ensures !isSpeaking
      ensures platform == old(platform) && voices == old(voices)
    {
      isSpeaking := false;
    }
  }
}
