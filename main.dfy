/**
 * One round of the program's main loop: in on-demand mode one recognised
 * utterance is first handled as a control command and then routed, by the state
 * the command left, to the location query and to Gemini; in continuous mode one
 * pass of the announcement loop runs, gated on object recognition. Camera
 * capture, detection and drawing are not part of this model: the frame width and
 * the tracker's contents are given.
 */
module MainLoop {

  import opened Wrappers
  import opened PyStr
  import opened PyDict
  import opened Config
  import opened Voice
  import opened SpeechProcessing
  import opened ObjectRecognition
  import opened GeminiAi

  /** `if user_query:` holds for a recognised utterance that is neither `None`
      nor the empty string. */
  predicate Heard(userQuery: Option<string>) {
    userQuery.Some? && userQuery.value != []
  }

  /** The state a round leaves, everything spoken in it and every prompt sent to
      the model in it. */
  datatype Outcome = Outcome(settings: Settings, spoken: seq<string>, prompts: seq<string>)

  /** The routing after `process_voice_command`, in state `s`, given what the
      location query would answer and what asking Gemini would say and send:
      outside on-demand mode nothing happens; with recognition on, an answered
      location query is all; otherwise Gemini is asked when it is enabled. */
  function Routed(s: Settings, objectAnswer: Option<string>, geminiSaid: seq<string>, geminiPrompts: seq<string>)
    : Outcome
  {
    if s.currentMode != OnDemand then Outcome(s, [], [])
    else if s.recognitionEnabled && objectAnswer.Some? then Outcome(s, [objectAnswer.value], [])
    else if s.geminiEnabled then Outcome(s, geminiSaid, geminiPrompts)
    else Outcome(s, [], [])
  }

  /** The routing for the utterance `q` in state `s`. */
  function RoutedQuery<C>(s: Settings, objs: Dict<Detection<C>>, q: string, width: int,
                          generate: string -> Option<string>, isSet: nat -> bool): Outcome
  {
    Routed(s, ObjectQueryAnswer(objs, q, width), GeminiSpoken(q, generate, isSet), PromptsSent(q))
  }

  /** One on-demand round from state `before`, for the utterance `userQuery`. */
  function OnDemandOutcome<C>(before: Settings, objs: Dict<Detection<C>>, userQuery: Option<string>, width: int,
                              generate: string -> Option<string>, isSet: nat -> bool): Outcome
  {
    if !Heard(userQuery) then Outcome(before, [], [])
    else
      var q := userQuery.value;
      var r := RoutedQuery(CommandSettings(before, q), objs, q, width, generate, isSet);
      r.(spoken := CommandReply(q) + r.spoken)
  }

  /** The routing of a heard utterance once `process_voice_command` has run: with
      recognition on, the location query, then Gemini if that returned False and
      Gemini is enabled; with recognition off, Gemini if it is enabled; outside
      on-demand mode, nothing. */
  method RouteQuery<C>(state: FeatureState, tracker: ObjectTracker<C>, speaker: Speaker, model: GenerativeModel,
                       userQuery: string, width: int, isSet: nat -> bool)
    modifies speaker, model
    ensures var r := RoutedQuery(state.Snapshot(), tracker.recognizedObjects, userQuery, width, model.generate, isSet);
      speaker.log == old(speaker.log) + r.spoken && model.prompts == old(model.prompts) + r.prompts
  {
    if state.currentMode == OnDemand && state.recognitionEnabled {
      ObjectsThenGemini(state, tracker, speaker, model, userQuery, width, isSet);
    } else if state.currentMode == OnDemand && !state.recognitionEnabled {
      GeminiOnly(state, tracker, speaker, model, userQuery, width, isSet);
    } else {
      assert speaker.log == old(speaker.log) + [];
      assert model.prompts == old(model.prompts) + [];
    }
  }

  /** Recognition on: `handle_object_query`, then Gemini if it returned False and
      Gemini is enabled. */
  method ObjectsThenGemini<C>(state: FeatureState, tracker: ObjectTracker<C>, speaker: Speaker, model: GenerativeModel,
                              userQuery: string, width: int, isSet: nat -> bool)
    requires state.currentMode == OnDemand && state.recognitionEnabled
    modifies speaker, model
    ensures var r := RoutedQuery(state.Snapshot(), tracker.recognizedObjects, userQuery, width, model.generate, isSet);
      speaker.log == old(speaker.log) + r.spoken && model.prompts == old(model.prompts) + r.prompts
  {
    var handled := HandleObjectQuery(tracker, speaker, userQuery, width);
    if !handled {
      assert speaker.log == old(speaker.log);
      if state.geminiEnabled {
        var _ := QueryGemini(speaker, model, userQuery, isSet);
      }
    }
  }

  /** Recognition off: Gemini if it is enabled. */
  method GeminiOnly<C>(state: FeatureState, tracker: ObjectTracker<C>, speaker: Speaker, model: GenerativeModel,
                       userQuery: string, width: int, isSet: nat -> bool)
    requires state.currentMode == OnDemand && !state.recognitionEnabled
    modifies speaker, model
    ensures var r := RoutedQuery(state.Snapshot(), tracker.recognizedObjects, userQuery, width, model.generate, isSet);
      speaker.log == old(speaker.log) + r.spoken && model.prompts == old(model.prompts) + r.prompts
  {
    if state.geminiEnabled {
      var _ := QueryGemini(speaker, model, userQuery, isSet);
    }
  }

  /** The on-demand branch of the main loop: a heard utterance goes to
      `process_voice_command` first and is then routed by the state it left. */
  method OnDemandTurn<C>(state: FeatureState, tracker: ObjectTracker<C>, speaker: Speaker, model: GenerativeModel,
                         userQuery: Option<string>, width: int, isSet: nat -> bool)
    modifies state, speaker, model
    ensures var o := OnDemandOutcome(old(state.Snapshot()), tracker.recognizedObjects, userQuery, width,
                                     model.generate, isSet);
      && state.Snapshot() == o.settings
      && speaker.log == old(speaker.log) + o.spoken
      && model.prompts == old(model.prompts) + o.prompts
  {
    if userQuery.Some? && userQuery.value != [] {
      var q := userQuery.value;
      ProcessVoiceCommand(state, speaker, q);
      RouteQuery(state, tracker, speaker, model, q, width, isSet);
      ghost var r := RoutedQuery(state.Snapshot(), tracker.recognizedObjects, q, width, model.generate, isSet);
      AppendAssoc(old(speaker.log), CommandReply(q), r.spoken);
    }
  }

  lemma AppendAssoc(a: seq<string>, b: seq<string>, c: seq<string>)
    ensures (a + b) + c == a + (b + c)
  {
  }

  /** What one pass of the continuous loop says in state `s`. */
  function ContinuousSpoken<C>(s: Settings, objs: Dict<Detection<C>>, width: int): seq<string> {
    if s.recognitionEnabled then
      var (left, middle, right) := Categorize(objs, width);
      [Announcement(left, middle, right)]
    else []
  }

  /** One pass of `while config.current_mode == "continuous"`: with recognition
      enabled, categorise the recognised objects and announce them; otherwise only
      the pause, which is not modelled. */
  method ContinuousPass<C>(state: FeatureState, tracker: ObjectTracker<C>, speaker: Speaker, width: int)
    modifies speaker
    ensures speaker.log == old(speaker.log) + ContinuousSpoken(state.Snapshot(), tracker.recognizedObjects, width)
  {
    if state.recognitionEnabled {
      var left, middle, right := CategorizeObjects(tracker, width);
      AnnounceObjects(speaker, left, middle, right);
    }
  }

  /** One round of the main loop in state `before`: one continuous pass, or one
      on-demand turn. No utterance is read in continuous mode. */
  function RoundOutcome<C>(before: Settings, objs: Dict<Detection<C>>, userQuery: Option<string>, width: int,
                           generate: string -> Option<string>, isSet: nat -> bool): Outcome
  {
    if before.currentMode == Continuous then Outcome(before, ContinuousSpoken(before, objs, width), [])
    else OnDemandOutcome(before, objs, userQuery, width, generate, isSet)
  }

  /** The body of the main loop after the frame is captured, with the continuous
      inner loop run once. */
  method Round<C>(state: FeatureState, tracker: ObjectTracker<C>, speaker: Speaker, model: GenerativeModel,
                  userQuery: Option<string>, width: int, isSet: nat -> bool)
    modifies state, speaker, model
    ensures var o := RoundOutcome(old(state.Snapshot()), tracker.recognizedObjects, userQuery, width,
                                  model.generate, isSet);
      && state.Snapshot() == o.settings
      && speaker.log == old(speaker.log) + o.spoken
      && model.prompts == old(model.prompts) + o.prompts
  {
    if state.currentMode == Continuous {
      ContinuousPass(state, tracker, speaker, width);
    } else {
      OnDemandTurn(state, tracker, speaker, model, userQuery, width, isSet);
    }
  }

  // ---------------------------------------------------------------------------
  // Properties of the routing
  // ---------------------------------------------------------------------------

  /** An utterance that is `None` or empty changes nothing, says nothing and
      sends nothing. */
  lemma SilenceChangesNothing<C>(before: Settings, objs: Dict<Detection<C>>, userQuery: Option<string>, width: int,
                                 generate: string -> Option<string>, isSet: nat -> bool)
    requires userQuery == None || userQuery == Some([])
    ensures OnDemandOutcome(before, objs, userQuery, width, generate, isSet) == Outcome(before, [], [])
  {
  }

  /** A heard utterance is a command first: the state after the round is the state
      the command leaves, and its acknowledgement is the first thing said. */
  lemma CommandComesFirst<C>(before: Settings, objs: Dict<Detection<C>>, q: string, width: int,
                             generate: string -> Option<string>, isSet: nat -> bool)
    requires q != []
    ensures var o := OnDemandOutcome(before, objs, Some(q), width, generate, isSet);
      && o.settings == CommandSettings(before, q)
      && |CommandReply(q)| <= |o.spoken|
      && o.spoken[..|CommandReply(q)|] == CommandReply(q)
  {
    var r := RoutedQuery(CommandSettings(before, q), objs, q, width, generate, isSet);
    AppendPrefix(CommandReply(q), r.spoken);
  }

  lemma AppendPrefix(a: seq<string>, b: seq<string>)
    ensures (a + b)[..|a|] == a
  {
  }

  /** When the command leaves continuous mode, neither the location query nor
      Gemini runs: only the acknowledgement is said. */
  lemma ContinuousAfterCommand<C>(before: Settings, objs: Dict<Detection<C>>, q: string, width: int,
                                  generate: string -> Option<string>, isSet: nat -> bool)
    requires q != [] && CommandSettings(before, q).currentMode == Continuous
    ensures OnDemandOutcome(before, objs, Some(q), width, generate, isSet) ==
      Outcome(CommandSettings(before, q), CommandReply(q), [])
  {
    assert CommandReply(q) + [] == CommandReply(q);
  }

  /** The routing never changes the state, and outside on-demand mode it neither
      tries the location query nor asks Gemini. */
  lemma RoutingOutsideOnDemand(s: Settings, answer: Option<string>, said: seq<string>, sent: seq<string>)
    ensures Routed(s, answer, said, sent).settings == s
    ensures s.currentMode != OnDemand ==> Routed(s, answer, said, sent) == Outcome(s, [], [])
  {
  }

  /** With recognition on, an answered location query is the only thing said and
      Gemini is not asked; a declined one goes to Gemini exactly when Gemini is
      enabled. */
  lemma RoutingRecognitionOn(s: Settings, answer: Option<string>, said: seq<string>, sent: seq<string>)
    requires s.currentMode == OnDemand && s.recognitionEnabled
    ensures answer.Some? ==> Routed(s, answer, said, sent) == Outcome(s, [answer.value], [])
    ensures answer.None? ==>
      Routed(s, answer, said, sent) ==
        if s.geminiEnabled then Outcome(s, said, sent) else Outcome(s, [], [])
  {
  }

  /** With recognition off, the location query is never tried, whatever it would
      answer, and Gemini is asked exactly when it is enabled. */
  lemma RoutingRecognitionOff(s: Settings, answer: Option<string>, said: seq<string>, sent: seq<string>)
    requires s.currentMode == OnDemand && !s.recognitionEnabled
    ensures Routed(s, answer, said, sent) ==
      if s.geminiEnabled then Outcome(s, said, sent) else Outcome(s, [], [])
  {
  }

  /** The model receives a prompt in a round exactly when the utterance was heard,
      the state after the command routes it to Gemini and the utterance carries a
      wake word with something left after cleaning; the prompt is the cleaned
      utterance. */
  lemma ModelCalledIff<C>(before: Settings, objs: Dict<Detection<C>>, userQuery: Option<string>, width: int,
                          generate: string -> Option<string>, isSet: nat -> bool)
    ensures var o := OnDemandOutcome(before, objs, userQuery, width, generate, isSet);
      o.prompts != [] <==>
        && Heard(userQuery)
        && CommandSettings(before, userQuery.value).currentMode == OnDemand
        && CommandSettings(before, userQuery.value).geminiEnabled
        && (CommandSettings(before, userQuery.value).recognitionEnabled ==> !HasLocationKeyword(Lower(userQuery.value)))
        && Prompt(userQuery.value).Some?
    ensures var o := OnDemandOutcome(before, objs, userQuery, width, generate, isSet);
      o.prompts != [] ==> o.prompts == [Prompt(userQuery.value).value]
  {
    if Heard(userQuery) {
      ObjectAnswerIff(objs, userQuery.value, width);
    }
  }

  /** "stop query" heard with no earlier trigger phrase disables Gemini before the
      routing, so the same utterance never reaches the model. */
  lemma StopQueryReachesNoModel<C>(before: Settings, objs: Dict<Detection<C>>, q: string, width: int,
                                   generate: string -> Option<string>, isSet: nat -> bool)
    requires q != [] && ParseCommand(q) == Some(StopQuery)
    ensures CommandReply(q) == ["Gemini AI disabled"]
    ensures !CommandSettings(before, q).geminiEnabled
    ensures OnDemandOutcome(before, objs, Some(q), width, generate, isSet).prompts == []
  {
    NoPromptWithoutGemini(before, objs, q, width, generate, isSet);
  }

  /** When the command leaves Gemini disabled, the round sends no prompt. */
  lemma NoPromptWithoutGemini<C>(before: Settings, objs: Dict<Detection<C>>, q: string, width: int,
                                 generate: string -> Option<string>, isSet: nat -> bool)
    requires q != [] && !CommandSettings(before, q).geminiEnabled
    ensures OnDemandOutcome(before, objs, Some(q), width, generate, isSet).prompts == []
  {
  }

  /** "switch to next" heard in on-demand mode is acknowledged and nothing else
      happens in that round; the next round runs the continuous loop. */
  lemma SwitchToNextIsSilent<C>(before: Settings, objs: Dict<Detection<C>>, q: string, width: int,
                                generate: string -> Option<string>, isSet: nat -> bool)
    requires q != [] && ParseCommand(q) == Some(SwitchNext)
    ensures OnDemandOutcome(before, objs, Some(q), width, generate, isSet) ==
      Outcome(before.(currentMode := Continuous), ["now you are in continuous mode"], [])
  {
    SwitchNextEffect(before, q);
    ContinuousAfterCommand(before, objs, q, width, generate, isSet);
  }

  lemma SwitchNextEffect(before: Settings, q: string)
    requires ParseCommand(q) == Some(SwitchNext)
    ensures CommandSettings(before, q) == before.(currentMode := Continuous)
    ensures CommandReply(q) == ["now you are in continuous mode"]
  {
  }

  /** A continuous pass announces exactly when recognition is enabled, and with
      non-empty labels it says word for word what the on-demand answer to a
      generic object query says. */
  lemma ContinuousGate<C>(s: Settings, objs: Dict<Detection<C>>, width: int)
    ensures ContinuousSpoken(s, objs, width) != [] <==> s.recognitionEnabled
    ensures s.recognitionEnabled && (forall i :: 0 <= i < |objs| ==> objs[i].0 != []) ==>
      var (left, middle, right) := Categorize(objs, width);
      ContinuousSpoken(s, objs, width) == [RegionResponse(Everywhere, left, middle, right)]
  {
    if s.recognitionEnabled && (forall i :: 0 <= i < |objs| ==> objs[i].0 != []) {
      var (left, middle, right) := Categorize(objs, width);
      LabelsNonEmpty(objs, width, Left);
      LabelsNonEmpty(objs, width, Middle);
      LabelsNonEmpty(objs, width, Right);
      AnnouncementIsSummary(left, middle, right);
    }
  }

  /** Every listed label is the name of some recognised object. */
  lemma LabelsNonEmpty<C>(objs: Dict<Detection<C>>, width: int, z: Zone)
    requires forall i :: 0 <= i < |objs| ==> objs[i].0 != []
    ensures forall i :: 0 <= i < |LabelsIn(objs, width, z)| ==> LabelsIn(objs, width, z)[i] != []
  {
    var names := LabelsIn(objs, width, z);
    forall i | 0 <= i < |names|
      ensures names[i] != []
    {
      LabelsInIff(objs, width, z, names[i]);
    }
  }

  /** A round in continuous mode reads no utterance, changes no state and sends no
      prompt, whatever was heard. */
  lemma ContinuousRoundIgnoresSpeech<C>(before: Settings, objs: Dict<Detection<C>>, u1: Option<string>,
                                        u2: Option<string>, width: int, generate: string -> Option<string>,
                                        isSet: nat -> bool)
    requires before.currentMode == Continuous
    ensures RoundOutcome(before, objs, u1, width, generate, isSet) == RoundOutcome(before, objs, u2, width, generate, isSet)
    ensures RoundOutcome(before, objs, u1, width, generate, isSet).settings == before
    ensures RoundOutcome(before, objs, u1, width, generate, isSet).prompts == []
  {
  }
}
