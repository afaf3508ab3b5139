/**
 * The text-to-speech engine (`engine.say(text)` followed by `engine.runAndWait()`),
 * observed as the log of everything it has rendered, in order.
 */
module Voice {

  class Speaker {
    var log: seq<string>

    constructor ()
      ensures log == []
    {
      log := [];
    }

    /** Renders one utterance; the call returns once it has been spoken. */
    method Say(utterance: string)
      modifies this
      ensures log == old(log) + [utterance]
    {
      log := log + [utterance];
    }
  }
}
