/**
 * Speech output and voice commands: splitting a reply into chunks that can be
 * spoken one at a time, speaking them while a listener may ask to stop, the
 * stop-keyword test the listener applies, and the dispatcher of mode and
 * toggle commands.
 */
module SpeechProcessing {

  import opened Wrappers
  import opened PyStr
  import opened Config
  import opened Voice

  // ---------------------------------------------------------------------------
  // chunk_text
  // ---------------------------------------------------------------------------

  /** A chunk is flushed once it holds this many words. */
  const MaxChunkWords: nat := 12

  /** The word ends a sentence: its last character is `.`, `!` or `?`. */
  predicate EndsSentence(word: string) {
    |word| > 0 && word[|word| - 1] in ".!?"
  }

  /** The word groups `chunk_text` produces from `words` when the words in
      `current` are already waiting in the open chunk. */
  function Pack(words: seq<string>, current: seq<string>): seq<seq<string>>
    decreases |words|
  {
    if words == [] then
      if current == [] then [] else [current]
    else
      var open := current + [words[0]];
      if |open| >= MaxChunkWords || EndsSentence(words[0]) then [open] + Pack(words[1..], [])
      else Pack(words[1..], open)
  }

  /** The word groups of `chunk_text`, before each is joined with spaces. */
  function Groups(words: seq<string>): seq<seq<string>> {
    Pack(words, [])
  }

  /** The words of all groups, in order. */
  function Flatten(groups: seq<seq<string>>): seq<string> {
    if groups == [] then [] else groups[0] + Flatten(groups[1..])
  }

  function JoinEach(groups: seq<seq<string>>): (chunks: seq<string>)
    ensures |chunks| == |groups|
  {
    seq(|groups|, i requires 0 <= i < |groups| => Join(" ", groups[i]))
  }

  function SplitEach(chunks: seq<string>): (groups: seq<seq<string>>)
    ensures |groups| == |chunks|
  {
    seq(|chunks|, i requires 0 <= i < |chunks| => Split(chunks[i]))
  }

  /** What `chunk_text(text)` returns. */
  function ChunksOf(text: string): seq<string> {
    JoinEach(Groups(Split(text)))
  }

  /** The shape greedy packing gives: every group holds 1 to 12 words; every group
      but the last was flushed, because it is full or its last word ends a
      sentence; and no word ends a sentence before the end of its group. */
  predicate ChunkShape(groups: seq<seq<string>>) {
    && (forall i :: 0 <= i < |groups| ==> 0 < |groups[i]| <= MaxChunkWords)
    && (forall i :: 0 <= i < |groups| - 1 ==>
          |groups[i]| == MaxChunkWords || EndsSentence(groups[i][|groups[i]| - 1]))
    && (forall i, j :: 0 <= i < |groups| && 0 <= j < |groups[i]| - 1 ==> !EndsSentence(groups[i][j]))
  }

  /** Packing loses, adds and reorders no word. */
  lemma {:induction false} PackFlatten(words: seq<string>, current: seq<string>)
    ensures Flatten(Pack(words, current)) == current + words
    decreases |words|
  {
    if words == [] {
      if current != [] {
        assert Flatten([current]) == current + Flatten([]);
      }
    } else {
      var open := current + [words[0]];
      assert current + words == open + words[1..];
      if |open| >= MaxChunkWords || EndsSentence(words[0]) {
        PackFlatten(words[1..], []);
        FlattenCons(open, Pack(words[1..], []));
        assert [] + words[1..] == words[1..];
      } else {
        PackFlatten(words[1..], open);
      }
    }
  }

  lemma FlattenCons(g: seq<string>, rest: seq<seq<string>>)
    ensures Flatten([g] + rest) == g + Flatten(rest)
  {
    assert ([g] + rest)[1..] == rest;
  }

  lemma ConsShape(g: seq<string>, rest: seq<seq<string>>)
    requires ChunkShape(rest)
    requires 0 < |g| <= MaxChunkWords
    requires rest != [] ==> |g| == MaxChunkWords || EndsSentence(g[|g| - 1])
    requires forall j :: 0 <= j < |g| - 1 ==> !EndsSentence(g[j])
    ensures ChunkShape([g] + rest)
  {
    var gs := [g] + rest;
    assert forall i :: 1 <= i < |gs| ==> gs[i] == rest[i - 1];
  }

  /** Greedy packing, started from an open chunk that is not yet full and holds no
      sentence end, has the shape of `ChunkShape`. */
  lemma {:induction false} PackShape(words: seq<string>, current: seq<string>)
    requires |current| < MaxChunkWords
    requires forall j :: 0 <= j < |current| ==> !EndsSentence(current[j])
    ensures ChunkShape(Pack(words, current))
    decreases |words|
  {
    if words == [] {
      if current != [] {
        ConsShape(current, []);
      }
    } else {
      var open := current + [words[0]];
      if |open| >= MaxChunkWords || EndsSentence(words[0]) {
        PackShape(words[1..], []);
        ConsShape(open, Pack(words[1..], []));
      } else {
        PackShape(words[1..], open);
      }
    }
  }

  /** A group that closes properly is emitted whole, and packing starts afresh after it. */
  lemma {:induction false} PackClosedGroup(current: seq<string>, g: seq<string>, rest: seq<string>)
    requires g != [] && |current + g| <= MaxChunkWords
    requires forall j :: 0 <= j < |current + g| - 1 ==> !EndsSentence((current + g)[j])
    requires |current + g| == MaxChunkWords || EndsSentence(g[|g| - 1])
    ensures Pack(g + rest, current) == [current + g] + Pack(rest, [])
    decreases |g|
  {
    var w := g[0];
    assert (g + rest)[0] == w && (g + rest)[1..] == g[1..] + rest;
    if |g| == 1 {
      assert g[1..] + rest == rest;
      assert current + g == current + [w];
    } else {
      assert (current + g)[|current|] == w;
      assert (current + [w]) + g[1..] == current + g;
      PackClosedGroup(current + [w], g[1..], rest);
    }
  }

  /** The last group is emitted whole. */
  lemma {:induction false} PackFinalGroup(current: seq<string>, g: seq<string>)
    requires g != [] && |current + g| <= MaxChunkWords
    requires forall j :: 0 <= j < |current + g| - 1 ==> !EndsSentence((current + g)[j])
    ensures Pack(g, current) == [current + g]
    decreases |g|
  {
    var w := g[0];
    if |g| == 1 {
      assert g[1..] == [];
      assert current + g == current + [w];
    } else {
      assert (current + g)[|current|] == w;
      assert (current + [w]) + g[1..] == current + g;
      PackFinalGroup(current + [w], g[1..]);
    }
  }

  /** Greedy packing is the only grouping of the words with this shape: the
      properties of `ChunkShape` determine what `chunk_text` returns. */
  lemma {:induction false} GroupsUnique(groups: seq<seq<string>>)
    requires ChunkShape(groups)
    ensures Groups(Flatten(groups)) == groups
    decreases |groups|
  {
    if groups != [] {
      var g, rest := groups[0], groups[1..];
      ShapeParts(groups);
      if rest == [] {
        assert Flatten(groups) == g;
        FreshFinalGroup(g);
      } else {
        FreshClosedGroup(g, Flatten(rest));
        GroupsUnique(rest);
        assert groups == [g] + rest;
      }
    }
  }

  /** The first group of a well-shaped grouping closes properly, and the other
      groups are well shaped. */
  lemma ShapeParts(groups: seq<seq<string>>)
    requires ChunkShape(groups) && groups != []
    ensures var g := groups[0];
      && g != [] && |g| <= MaxChunkWords
      && (forall j :: 0 <= j < |g| - 1 ==> !EndsSentence(g[j]))
      && (|groups| > 1 ==> |g| == MaxChunkWords || EndsSentence(g[|g| - 1]))
      && ChunkShape(groups[1..])
      && Flatten(groups) == g + Flatten(groups[1..])
  {
    ShapeTail(groups);
  }

  /** A properly closed group at the start is emitted whole. */
  lemma FreshClosedGroup(g: seq<string>, rest: seq<string>)
    requires g != [] && |g| <= MaxChunkWords
    requires forall j :: 0 <= j < |g| - 1 ==> !EndsSentence(g[j])
    requires |g| == MaxChunkWords || EndsSentence(g[|g| - 1])
    ensures Pack(g + rest, []) == [g] + Pack(rest, [])
  {
    assert [] + g == g;
    PackClosedGroup([], g, rest);
  }

  /** A last group at the start is the only group. */
  lemma FreshFinalGroup(g: seq<string>)
    requires g != [] && |g| <= MaxChunkWords
    requires forall j :: 0 <= j < |g| - 1 ==> !EndsSentence(g[j])
    ensures Pack(g, []) == [g]
  {
    assert [] + g == g;
    PackFinalGroup([], g);
  }

  /** Every group after the first is well shaped too. */
  lemma ShapeTail(groups: seq<seq<string>>)
    requires ChunkShape(groups) && groups != []
    ensures ChunkShape(groups[1..])
  {
    var rest := groups[1..];
    forall i | 0 <= i < |rest|
      ensures 0 < |rest[i]| <= MaxChunkWords
      ensures i < |rest| - 1 ==> |rest[i]| == MaxChunkWords || EndsSentence(rest[i][|rest[i]| - 1])
      ensures forall j :: 0 <= j < |rest[i]| - 1 ==> !EndsSentence(rest[i][j])
    {
      assert rest[i] == groups[i + 1];
    }
  }

  /** A word of a group is a word of the flattened list. */
  lemma {:induction false} InFlatten(groups: seq<seq<string>>, i: nat, j: nat)
    requires i < |groups| && j < |groups[i]|
    ensures groups[i][j] in Flatten(groups)
    decreases i
  {
    if i > 0 {
      InFlatten(groups[1..], i - 1, j);
    }
  }

  /** Splitting each chunk gives back its group, since the words hold no whitespace. */
  lemma SplitEachJoinEach(groups: seq<seq<string>>)
    requires forall i, j :: 0 <= i < |groups| && 0 <= j < |groups[i]| ==> IsToken(groups[i][j])
    ensures SplitEach(JoinEach(groups)) == groups
  {
    forall i | 0 <= i < |groups|
      ensures SplitEach(JoinEach(groups))[i] == groups[i]
    {
      SplitJoin(groups[i]);
    }
  }

  /** `chunk_text(text)`: words in the order `text.split()` gives them, packed
      greedily into chunks that are flushed at 12 words or after a word that ends
      a sentence, each chunk the words of its group joined by single spaces. */
  method ChunkText(text: string) returns (chunks: seq<string>)
    ensures chunks == ChunksOf(text)
  {
    var words := Split(text);
    chunks := [];
    var current: seq<string> := [];
    ghost var done: seq<seq<string>> := [];
    for i := 0 to |words|
      invariant Groups(words) == done + Pack(words[i..], current)
      invariant chunks == JoinEach(done)
    {
      var word := words[i];
      PackStep(words, i, current, done);
      var open := current + [word];
      if |open| >= MaxChunkWords || EndsSentence(word) {
        JoinEachAppend(done, open);
        chunks := chunks + [Join(" ", open)];
        done := done + [open];
        current := [];
      } else {
        current := open;
      }
    }
    PackEnd(words, current, done);
    if current != [] {
      JoinEachAppend(done, current);
      chunks := chunks + [Join(" ", current)];
      done := done + [current];
    }
  }

  /** One iteration of the packing loop. */
  lemma PackStep(words: seq<string>, i: nat, current: seq<string>, done: seq<seq<string>>)
    requires i < |words|
    ensures var open := current + [words[i]];
      done + Pack(words[i..], current) ==
        if |open| >= MaxChunkWords || EndsSentence(words[i]) then (done + [open]) + Pack(words[i + 1..], [])
        else done + Pack(words[i + 1..], open)
  {
    assert words[i..][0] == words[i] && words[i..][1..] == words[i + 1..];
    var open := current + [words[i]];
    assert done + ([open] + Pack(words[i + 1..], [])) == (done + [open]) + Pack(words[i + 1..], []);
  }

  /** The end of the packing loop: what is still open becomes the last group. */
  lemma PackEnd(words: seq<string>, current: seq<string>, done: seq<seq<string>>)
    ensures done + Pack(words[|words|..], current) == if current == [] then done else done + [current]
  {
    assert words[|words|..] == [];
  }

  /** Joining one more group appends one more chunk. */
  lemma JoinEachAppend(done: seq<seq<string>>, g: seq<string>)
    ensures JoinEach(done + [g]) == JoinEach(done) + [Join(" ", g)]
  {
    var l, r := JoinEach(done + [g]), JoinEach(done) + [Join(" ", g)];
    assert forall i :: 0 <= i < |done| ==> l[i] == r[i];
  }

  /** The chunks of `text`, split again, give back the words of `text` in order;
      they have the shape of `ChunkShape`; and there are none exactly when `text`
      is empty or whitespace only. */
  lemma ChunksOfSpec(text: string)
    ensures Flatten(SplitEach(ChunksOf(text))) == Split(text)
    ensures ChunkShape(SplitEach(ChunksOf(text)))
    ensures ChunksOf(text) == [] <==> forall i :: 0 <= i < |text| ==> IsSpace(text[i])
  {
    var words := Split(text);
    GroupsRoundTrip(words);
    PackShape(words, []);
    SplitBlank(text);
    GroupsEmpty(words);
  }

  /** Joining the groups of a list of tokens and splitting each chunk again gives
      the groups back, and together they hold the same words. */
  lemma GroupsRoundTrip(words: seq<string>)
    requires forall w :: w in words ==> IsToken(w)
    ensures Flatten(Groups(words)) == words
    ensures SplitEach(JoinEach(Groups(words))) == Groups(words)
  {
    var groups := Groups(words);
    PackFlatten(words, []);
    GroupTokens(groups);
    SplitEachJoinEach(groups);
  }

  /** There are no groups exactly when there are no words. */
  lemma GroupsEmpty(words: seq<string>)
    ensures Groups(words) == [] <==> words == []
  {
    PackFlatten(words, []);
  }

  /** Every word of the groups of `text.split()` is a token. */
  lemma GroupTokens(groups: seq<seq<string>>)
    requires forall w :: w in Flatten(groups) ==> IsToken(w)
    ensures forall i, j :: 0 <= i < |groups| && 0 <= j < |groups[i]| ==> IsToken(groups[i][j])
  {
    forall i, j | 0 <= i < |groups| && 0 <= j < |groups[i]|
      ensures IsToken(groups[i][j])
    {
      InFlatten(groups, i, j);
    }
  }

  // ---------------------------------------------------------------------------
  // speak_with_interruption
  // ---------------------------------------------------------------------------

  /** Spoken once speaking ends while the stop flag is set. */
  const StopAcknowledgement := "okk i will stop"

  /** How many of `n` chunks are spoken: the first check, from the `i`-th on, that
      finds the stop flag set, or `n` when none does. `isSet(k)` is the flag's value
      when `k` chunks have been spoken. */
  function StopPoint(n: nat, isSet: nat -> bool, i: nat): (k: nat)
    requires i <= n
    ensures i <= k <= n
    ensures forall j :: i <= j < k ==> !isSet(j)
    ensures k < n ==> isSet(k)
    decreases n - i
  {
    if i == n || isSet(i) then i else StopPoint(n, isSet, i + 1)
  }

  /** What `speak_with_interruption` renders for the given chunks. */
  function Spoken(chunks: seq<string>, isSet: nat -> bool): seq<string> {
    var k := StopPoint(|chunks|, isSet, 0);
    chunks[..k] + if isSet(k) then [StopAcknowledgement] else []
  }

  /** `speak_with_interruption(text)`. The background listener is replaced by the
      oracle `isSet`, which reports the stop flag each time it is checked; the
      listener's start, the `is_speaking` flag and the final `join` are not
      modelled, nor the pause after each chunk. */
  method SpeakWithInterruption(speaker: Speaker, text: string, isSet: nat -> bool)
    modifies speaker
    ensures speaker.log == old(speaker.log) + Spoken(ChunksOf(text), isSet)
  {
    var chunks := ChunkText(text);
    SpeakChunks(speaker, chunks, isSet);
  }

  /** The body of `speak_with_interruption` after chunking: each chunk is spoken
      unless the stop flag is found set first, and the acknowledgement follows
      when the flag is set once the loop ends. */
  method SpeakChunks(speaker: Speaker, chunks: seq<string>, isSet: nat -> bool)
    modifies speaker
    ensures speaker.log == old(speaker.log) + Spoken(chunks, isSet)
  {
    var spoken := 0;
    while spoken < |chunks|
      invariant 0 <= spoken <= |chunks|
      invariant forall j :: 0 <= j < spoken ==> !isSet(j)
      invariant speaker.log == old(speaker.log) + chunks[..spoken]
    {
      if isSet(spoken) {
        break;
      }
      speaker.Say(chunks[spoken]);
      spoken := spoken + 1;
      assert chunks[..spoken] == chunks[..spoken - 1] + [chunks[spoken - 1]];
    }
    StopPointAt(|chunks|, isSet, spoken);
    if isSet(spoken) {
      speaker.Say(StopAcknowledgement);
    }
  }

  /** The stop point is the one check that ends the loop. */
  lemma StopPointAt(n: nat, isSet: nat -> bool, k: nat)
    requires k <= n && (k < n ==> isSet(k))
    requires forall j :: 0 <= j < k ==> !isSet(j)
    ensures StopPoint(n, isSet, 0) == k
  {
  }

  /** What is rendered is a prefix of the chunks, in order, followed by the
      acknowledgement exactly when the flag is set once speaking ends; every
      check before a spoken chunk found the flag clear. */
  lemma SpokenShape(chunks: seq<string>, isSet: nat -> bool)
    ensures var k := StopPoint(|chunks|, isSet, 0);
      && Spoken(chunks, isSet)[..k] == chunks[..k]
      && (k < |chunks| ==> isSet(k))
      && (forall j :: 0 <= j < k ==> !isSet(j))
      && |Spoken(chunks, isSet)| == k + (if isSet(k) then 1 else 0)
      && (isSet(k) ==> Spoken(chunks, isSet)[k] == StopAcknowledgement)
  {
  }

  /** With the flag set before the first check, no chunk is spoken, only the acknowledgement. */
  lemma StoppedBeforeFirstChunk(chunks: seq<string>, isSet: nat -> bool)
    requires isSet(0)
    ensures Spoken(chunks, isSet) == [StopAcknowledgement]
  {
  }

  /** With the flag never set, every chunk is spoken and nothing else. */
  lemma NeverStopped(chunks: seq<string>, isSet: nat -> bool)
    requires forall k :: 0 <= k <= |chunks| ==> !isSet(k)
    ensures Spoken(chunks, isSet) == chunks
  {
    assert StopPoint(|chunks|, isSet, 0) == |chunks|;
  }

  // ---------------------------------------------------------------------------
  // The listener's stop keywords
  // ---------------------------------------------------------------------------

  const InterruptKeywords: seq<string> := ["stop response", "cancel", "shut up", "stop"]

  /** The listener's test on the lower-cased text it recognised. */
  predicate IsInterrupt(interruptText: string) {
    ContainsAny(interruptText, InterruptKeywords)
  }

  /** The test holds exactly when one of the four keywords occurs in the text. */
  lemma InterruptIff(t: string)
    ensures IsInterrupt(t) <==>
      Contains(t, "stop response") || Contains(t, "cancel") || Contains(t, "shut up") || Contains(t, "stop")
  {
    assert InterruptKeywords[1..][1..][1..][1..] == [];
  }

  /** "stop response" adds nothing: it contains "stop", so three keywords decide the test. */
  lemma InterruptThreeKeywords(t: string)
    ensures IsInterrupt(t) <==> Contains(t, "stop") || Contains(t, "cancel") || Contains(t, "shut up")
  {
    InterruptIff(t);
    if Contains(t, "stop response") {
      assert "stop" <= "stop response";
      ContainsTransitive(t, "stop response", "stop");
    }
  }

  // ---------------------------------------------------------------------------
  // process_voice_command
  // ---------------------------------------------------------------------------

  datatype Command = SwitchBack | SwitchNext | StopRecognition | StartRecognition | StopQuery | StartQuery

  /** The trigger phrases, in the order `process_voice_command` tests them. */
  const CommandTable: seq<(string, Command)> := [
    ("switch to back", SwitchBack),
    ("switch to next", SwitchNext),
    ("stop recognition", StopRecognition),
    ("start recognition", StartRecognition),
    ("stop query", StopQuery),
    ("start query", StartQuery)
  ]

  /** The command of the first phrase in `table` that occurs in `command`. */
  function FirstTrigger(command: string, table: seq<(string, Command)>): Option<Command>
    decreases |table|
  {
    if table == [] then None
    else if Contains(command, table[0].0) then Some(table[0].1)
    else FirstTrigger(command, table[1..])
  }

  /** The command a heard phrase selects, if any. */
  function ParseCommand(command: string): Option<Command> {
    FirstTrigger(command, CommandTable)
  }

  /** The first-match rule: the result is the command of the earliest phrase that
      occurs, and there is none exactly when no phrase occurs. */
  lemma {:induction false} FirstTriggerSpec(command: string, table: seq<(string, Command)>)
    ensures FirstTrigger(command, table) == None <==>
      forall i :: 0 <= i < |table| ==> !Contains(command, table[i].0)
    ensures forall i :: (0 <= i < |table| && Contains(command, table[i].0) &&
      (forall j :: 0 <= j < i ==> !Contains(command, table[j].0))) ==>
        FirstTrigger(command, table) == Some(table[i].1)
    decreases |table|
  {
    if table != [] {
      FirstTriggerSpec(command, table[1..]);
      assert forall i :: 1 <= i < |table| ==> table[1..][i - 1] == table[i];
    }
  }

  /** The spoken acknowledgement of each command. */
  function Acknowledgement(c: Command): string {
    match c
    case SwitchBack => "i will got to on demand mode"
    case SwitchNext => "now you are in continuous mode"
    case StopRecognition => "Object recognition disabled"
    case StartRecognition => "Object recognition enabled"
    case StopQuery => "Gemini AI disabled"
    case StartQuery => "Gemini AI enabled"
  }

  /** The state change of each command, through the `config` setters. */
  function ApplyCommand(s: Settings, c: Command): Settings {
    match c
    case SwitchBack => WithMode(s, OnDemand)
    case SwitchNext => WithMode(s, Continuous)
    case StopRecognition => WithRecognition(s, false)
    case StartRecognition => WithRecognition(s, true)
    case StopQuery => WithGemini(s, false)
    case StartQuery => WithGemini(s, true)
  }

  /** The feature state after `process_voice_command(command)`. */
  function CommandSettings(s: Settings, command: string): Settings {
    match ParseCommand(command)
    case None => s
    case Some(c) => ApplyCommand(s, c)
  }

  /** What `process_voice_command(command)` says. */
  function CommandReply(command: string): seq<string> {
    match ParseCommand(command)
    case None => []
    case Some(c) => [Acknowledgement(c)]
  }

  /** The `elif` chain of `process_voice_command`, phrase by phrase. */
  lemma ParseCommandChain(command: string)
    ensures ParseCommand(command) ==
      if Contains(command, "switch to back") then Some(SwitchBack)
      else if Contains(command, "switch to next") then Some(SwitchNext)
      else if Contains(command, "stop recognition") then Some(StopRecognition)
      else if Contains(command, "start recognition") then Some(StartRecognition)
      else if Contains(command, "stop query") then Some(StopQuery)
      else if Contains(command, "start query") then Some(StartQuery)
      else None
  {
    var t := CommandTable;
    assert t[1..][1..][1..][1..][1..][1..] == [];
  }

  /** `process_voice_command(command)`: the first trigger phrase found selects one
      setter call and one fixed acknowledgement; without a trigger phrase nothing
      changes and nothing is said. */
  method ProcessVoiceCommand(state: FeatureState, speaker: Speaker, command: string)
    modifies state, speaker
    ensures state.Snapshot() == CommandSettings(old(state.Snapshot()), command)
    ensures speaker.log == old(speaker.log) + CommandReply(command)
  {
    ParseCommandChain(command);
    if Contains(command, "switch to back") {
      Perform(state, speaker, SwitchBack);
    } else if Contains(command, "switch to next") {
      Perform(state, speaker, SwitchNext);
    } else if Contains(command, "stop recognition") {
      Perform(state, speaker, StopRecognition);
    } else if Contains(command, "start recognition") {
      Perform(state, speaker, StartRecognition);
    } else if Contains(command, "stop query") {
      Perform(state, speaker, StopQuery);
    } else if Contains(command, "start query") {
      Perform(state, speaker, StartQuery);
    }
  }

  /** One branch of the `elif` chain: the `config` setter for the command, then
      its acknowledgement. */
  method Perform(state: FeatureState, speaker: Speaker, c: Command)
    modifies state, speaker
    ensures state.Snapshot() == ApplyCommand(old(state.Snapshot()), c)
    ensures speaker.log == old(speaker.log) + [Acknowledgement(c)]
  {
    match c
    case SwitchBack =>
      state.SwitchMode(OnDemand);
      speaker.Say("i will got to on demand mode");
    case SwitchNext =>
      state.SwitchMode(Continuous);
      speaker.Say("now you are in continuous mode");
    case StopRecognition =>
      state.ToggleRecognition(false);
      speaker.Say("Object recognition disabled");
    case StartRecognition =>
      state.ToggleRecognition(true);
      speaker.Say("Object recognition enabled");
    case StopQuery =>
      state.ToggleGemini(false);
      speaker.Say("Gemini AI disabled");
    case StartQuery =>
      state.ToggleGemini(true);
      speaker.Say("Gemini AI enabled");
  }

  /** "switch to back" is tested first and wins over "switch to next"; each switch
      leaves both toggles as they were. */
  lemma SwitchPrecedence(s: Settings, command: string)
    ensures Contains(command, "switch to back") ==>
      CommandSettings(s, command) == s.(currentMode := OnDemand) &&
      CommandReply(command) == ["i will got to on demand mode"]
    ensures Contains(command, "switch to next") && !Contains(command, "switch to back") ==>
      CommandSettings(s, command) == s.(currentMode := Continuous) &&
      CommandReply(command) == ["now you are in continuous mode"]
  {
    ParseCommandChain(command);
  }

  /** A command changes the mode only by a switch phrase, and a toggle command
      changes only its own flag. */
  lemma TogglesKeepMode(s: Settings, c: Command)
    ensures !(c == SwitchBack || c == SwitchNext) ==> ApplyCommand(s, c).currentMode == s.currentMode
    ensures (c == StopRecognition || c == StartRecognition) ==>
      ApplyCommand(s, c) == s.(recognitionEnabled := c == StartRecognition)
    ensures (c == StopQuery || c == StartQuery) ==>
      ApplyCommand(s, c) == s.(geminiEnabled := c == StartQuery)
  {
  }

  /** A phrase with none of the six triggers changes nothing and is not answered. */
  lemma NoTriggerNoEffect(s: Settings, command: string)
    ensures (forall i :: 0 <= i < |CommandTable| ==> !Contains(command, CommandTable[i].0)) <==>
      ParseCommand(command) == None
    ensures ParseCommand(command) == None ==> CommandSettings(s, command) == s && CommandReply(command) == []
  {
    FirstTriggerSpec(command, CommandTable);
  }

  /** "switch to next" heard in on-demand mode: continuous mode, one acknowledgement. */
  lemma SwitchToNextScenario(s: Settings)
    requires s.currentMode == OnDemand
    ensures CommandSettings(s, "switch to next").currentMode == Continuous
    ensures CommandReply("switch to next") == ["now you are in continuous mode"]
  {
    MissingCharNotContained("switch to next", "switch to back", 'b');
    assert Contains("switch to next", "switch to next");
    ParseCommandChain("switch to next");
  }
}
