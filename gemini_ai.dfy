/**
 * The Gemini side of the assistant: a query is answered only when it names a
 * wake word; the wake words are deleted, the remainder is sent to the model, and
 * a response is spoken with the interruptible speaker. The model itself is
 * outside the model: it is given as the function `generate` from prompt to an
 * optional response text.
 */
module GeminiAi {

  import opened Wrappers
  import opened PyStr
  import opened Voice
  import opened SpeechProcessing

  /** `WAKE_WORDS`, in their declared order. */
  const WakeWords: seq<string> := ["gemini", "gemini wake up"]

  /** The query, already lower-cased, names a wake word. */
  predicate HasWakeWord(lowerQuery: string) {
    ContainsAny(lowerQuery, WakeWords)
  }

  /** The cleaning loop run over `words` in order: each word is deleted
      everywhere and the result stripped. */
  function CleanWith(q: string, words: seq<string>): (r: string)
    ensures |r| <= |q|
    ensures words != [] ==> IsStripped(r)
    decreases |words|
  {
    if words == [] then q
    else Strip(RemoveAll(CleanWith(q, words[..|words| - 1]), words[|words| - 1]))
  }

  /** The prompt sent to the model for `user_query`, or `None` when there is no
      call: without a wake word, or when nothing is left once the wake words
      are deleted. */
  function Prompt(userQuery: string): Option<string> {
    var lowerQuery := Lower(userQuery);
    if !HasWakeWord(lowerQuery) then None
    else
      var clean := CleanWith(lowerQuery, WakeWords);
      if clean == [] then None else Some(clean)
  }

  /** The model's response to `prompt`, stripped, or `None` for a falsy response. */
  function Reply(generate: string -> Option<string>, prompt: string): Option<string> {
    match generate(prompt)
    case None => None
    case Some(text) => Some(Strip(text))
  }

  /** The text spoken for `user_query`: the model's response, stripped, or
      `None` when nothing is spoken. */
  function Answer(userQuery: string, generate: string -> Option<string>): Option<string> {
    match Prompt(userQuery)
    case None => None
    case Some(p) => Reply(generate, p)
  }

  /** What is rendered for an optional answer. */
  function SpokenAnswer(answer: Option<string>, isSet: nat -> bool): seq<string> {
    match answer
    case None => []
    case Some(text) => Spoken(ChunksOf(text), isSet)
  }

  /** Everything rendered while answering `user_query`. */
  function GeminiSpoken(userQuery: string, generate: string -> Option<string>, isSet: nat -> bool): seq<string> {
    SpokenAnswer(Answer(userQuery, generate), isSet)
  }

  /** The generative model, observed through the prompts it has received. */
  class GenerativeModel {
    const generate: string -> Option<string>
    var prompts: seq<string>

    constructor (generate: string -> Option<string>)
      ensures this.generate == generate && prompts == []
    {
      this.generate := generate;
      prompts := [];
    }

    /** `generate_content([prompt])`: a falsy response is `None`; otherwise the
        text of its first candidate. */
    method GenerateContent(prompt: string) returns (response: Option<string>)
      modifies this
      ensures prompts == old(prompts) + [prompt]
      ensures response == generate(prompt)
    {
      prompts := prompts + [prompt];
      response := generate(prompt);
    }
  }

  /** The prompts a query adds to the model's log. */
  function PromptsSent(userQuery: string): seq<string> {
    match Prompt(userQuery)
    case None => []
    case Some(p) => [p]
  }

  /** The cleaning loop of `query_gemini`: every wake word, in order, deleted
      and the result stripped. */
  method CleanQuery(lowerQuery: string) returns (cleanQuery: string)
    ensures cleanQuery == CleanWith(lowerQuery, WakeWords)
  {
    cleanQuery := lowerQuery;
    for i := 0 to |WakeWords|
      invariant cleanQuery == CleanWith(lowerQuery, WakeWords[..i])
    {
      assert WakeWords[..i + 1][..i] == WakeWords[..i];
      cleanQuery := Strip(RemoveAll(cleanQuery, WakeWords[i]));
    }
    assert WakeWords[..|WakeWords|] == WakeWords;
  }

  /** `query_gemini(user_query)`: true exactly when a response was spoken. The
      message printed for an empty response is not modelled. */
  method QueryGemini(speaker: Speaker, model: GenerativeModel, userQuery: string, isSet: nat -> bool)
    returns (processed: bool)
    modifies speaker, model
    ensures processed == Answer(userQuery, model.generate).Some?
    ensures model.prompts == old(model.prompts) + PromptsSent(userQuery)
    ensures speaker.log == old(speaker.log) + GeminiSpoken(userQuery, model.generate, isSet)
  {
    var prompt := ComputePrompt(userQuery);
    if prompt == None {
      return false;
    }
    processed := AskModel(speaker, model, prompt.value, isSet);
  }

  /** The first half of `query_gemini`: lower-case the query, give up without a
      wake word, delete the wake words, give up when nothing is left. */
  method ComputePrompt(userQuery: string) returns (prompt: Option<string>)
    ensures prompt == Prompt(userQuery)
  {
    var lowerQuery := Lower(userQuery);
    if !HasWakeWord(lowerQuery) {
      return None;
    }
    var cleanQuery := CleanQuery(lowerQuery);
    if cleanQuery == [] {
      return None;
    }
    return Some(cleanQuery);
  }

  /** The call to the model and the speaking of its response, from the end of
      `query_gemini`. */
  method AskModel(speaker: Speaker, model: GenerativeModel, cleanQuery: string, isSet: nat -> bool)
    returns (processed: bool)
    modifies speaker, model
    ensures processed == Reply(model.generate, cleanQuery).Some?
    ensures model.prompts == old(model.prompts) + [cleanQuery]
    ensures speaker.log == old(speaker.log) + SpokenAnswer(Reply(model.generate, cleanQuery), isSet)
  {
    var response := model.GenerateContent(cleanQuery);
    if response.Some? {
      var responseText := Strip(response.value);
      assert Reply(model.generate, cleanQuery) == Some(responseText);
      assert SpokenAnswer(Some(responseText), isSet) == Spoken(ChunksOf(responseText), isSet);
      SpeakWithInterruption(speaker, responseText, isSet);
      return true;
    } else {
      assert Reply(model.generate, cleanQuery) == None;
      return false;
    }
  }

  /** The wake test ignores case, and comes down to "gemini" occurring: the second
      wake word contains the first. */
  lemma WakeWordIff(userQuery: string)
    ensures HasWakeWord(Lower(userQuery)) <==> Contains(Lower(userQuery), "gemini")
  {
    var q := Lower(userQuery);
    assert WakeWords[1..][1..] == [];
    if Contains(q, "gemini wake up") {
      assert "gemini" <= "gemini wake up";
      ContainsTransitive(q, "gemini wake up", "gemini");
    }
  }

  /** Without a wake word the model is not called and nothing is spoken; when the
      model is called, it is with a stripped, non-empty prompt no longer than the
      query. */
  lemma PromptSpec(userQuery: string, generate: string -> Option<string>, isSet: nat -> bool)
    ensures !HasWakeWord(Lower(userQuery)) ==>
      Prompt(userQuery) == None && GeminiSpoken(userQuery, generate, isSet) == []
    ensures Prompt(userQuery).Some? ==>
      var p := Prompt(userQuery).value;
      p != [] && IsStripped(p) && |p| <= |userQuery|
    ensures Answer(userQuery, generate).Some? ==> Prompt(userQuery).Some?
  {
  }

  /** A response is spoken chunk by chunk, subject to interruption; with no
      interruption, every chunk of the stripped response. */
  lemma AnswerSpoken(userQuery: string, generate: string -> Option<string>, isSet: nat -> bool)
    requires Answer(userQuery, generate).Some?
    requires forall k :: !isSet(k)
    ensures GeminiSpoken(userQuery, generate, isSet) == ChunksOf(Answer(userQuery, generate).value)
  {
    NeverStopped(ChunksOf(Answer(userQuery, generate).value), isSet);
  }

  /** A query that lower-cases to "gemini " and a stripped remainder with no
      letter g is sent as that remainder: "gemini" is deleted, the space after it
      is stripped, and "gemini wake up" can no longer occur. */
  lemma LeadingWakeWord(userQuery: string, rest: string)
    requires Lower(userQuery) == "gemini " + rest
    requires rest != [] && IsStripped(rest) && 'g' !in rest
    ensures Prompt(userQuery) == Some(rest)
  {
    var q := Lower(userQuery);
    StartsWithWakeWord(q, rest);
    CleanWithTwo(q, WakeWords);
    DeleteLeadingWakeWord(q, WakeWords[0], rest);
    StripLeadingSpace(rest);
    NoSecondWakeWord(rest, WakeWords[1]);
  }

  lemma StartsWithWakeWord(q: string, rest: string)
    requires q == "gemini " + rest
    ensures HasWakeWord(q)
  {
    assert WakeWords[0] <= q by { assert q[..6] == WakeWords[0]; }
    assert Contains(q, WakeWords[0]);
  }

  lemma DeleteLeadingWakeWord(q: string, w: string, rest: string)
    requires q == "gemini " + rest && w == "gemini"
    requires 'g' !in rest
    ensures RemoveAll(q, w) == [' '] + rest
  {
    assert w <= q by { assert q[..6] == w; }
    assert q[|w|..] == [' '] + rest;
    assert 'g' !in [' '] + rest && 'g' in w;
    MissingCharNotContained([' '] + rest, w, 'g');
  }

  lemma NoSecondWakeWord(rest: string, w: string)
    requires w == "gemini wake up"
    requires 'g' !in rest && IsStripped(rest)
    ensures Strip(RemoveAll(rest, w)) == rest
  {
    assert 'g' in w;
    MissingCharNotContained(rest, w, 'g');
  }

  /** One leading space before a stripped, non-empty string is stripped away. */
  lemma StripLeadingSpace(rest: string)
    requires rest != [] && IsStripped(rest)
    ensures Strip([' '] + rest) == rest
  {
    assert ([' '] + rest)[1..] == rest;
    assert TrimStart([' '] + rest) == rest;
  }

  /** Running the cleaning loop over two words. */
  lemma CleanWithTwo(q: string, words: seq<string>)
    requires |words| == 2
    ensures CleanWith(q, words) == Strip(RemoveAll(Strip(RemoveAll(q, words[0])), words[1]))
  {
    var first := words[..1];
    assert first[..0] == [] && first[0] == words[0];
    assert CleanWith(q, first) == Strip(RemoveAll(CleanWith(q, []), words[0]));
    assert words[..|words| - 1] == first;
  }

  /** "Gemini wake up what time": "gemini" is deleted first, which leaves nothing
      for the second wake word, so the model is asked "wake up what time". */
  lemma WakeUpScenario(userQuery: string)
    requires userQuery == "Gemini wake up what time"
    ensures Prompt(userQuery) == Some("wake up what time")
  {
    var head, rest := userQuery[..7], userQuery[7..];
    WakeUpParts(userQuery);
    assert userQuery == head + rest;
    LowerAppend(head, rest);
    LowerHead(head);
    WakeUpRest(rest);
    LowerUnchanged(rest);
    LeadingWakeWord(userQuery, rest);
  }

  lemma WakeUpParts(userQuery: string)
    requires userQuery == "Gemini wake up what time"
    ensures userQuery[..7] == "Gemini " && userQuery[7..] == "wake up what time"
  {
  }

  lemma LowerHead(head: string)
    requires head == "Gemini "
    ensures Lower(head) == "gemini "
  {
    assert LowerChar(head[0]) == 'g';
  }

  lemma WakeUpRest(rest: string)
    requires rest == "wake up what time"
    ensures forall i :: 0 <= i < |rest| ==> !('A' <= rest[i] <= 'Z')
    ensures 'g' !in rest && rest != [] && IsStripped(rest)
  {
  }

  /** The bare wake word, in any letter case, is not sent to the model:
      nothing is left once it is deleted. */
  lemma BareWakeWord(userQuery: string)
    requires Lower(userQuery) == "gemini"
    ensures HasWakeWord(Lower(userQuery))
    ensures Prompt(userQuery) == None
  {
    var q := Lower(userQuery);
    DeleteBareWakeWord(q, WakeWords[0]);
    CleanWithTwo(q, WakeWords);
  }

  lemma DeleteBareWakeWord(q: string, w: string)
    requires q == "gemini" && w == "gemini"
    ensures HasWakeWord(q) && RemoveAll(q, w) == []
  {
    assert w <= q;
    assert Contains(q, WakeWords[0]);
    assert q[|w|..] == [];
  }
}
