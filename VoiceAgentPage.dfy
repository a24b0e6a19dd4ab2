/**
 * The voice agent page: the conversation shown to the user, the loading and
 * recording flags, and the audio player's source. `handleNewMessage` awaits
 * two collaborators (the conversation flow and the speech flow); its three
 * synchronous stretches are the methods `BeginMessage`, `ReplyArrived` and
 * `SpeechArrived`, so the state between them (the user's message already
 * shown, no reply yet) is visible, as it is on the page. The collaborators'
 * outcomes are parameters: `None` stands for a call that threw.
 */
module VoiceAgentPage {
  import opened Options
  import opened VoiceAgentFlow

  /** The entry shown in place of a reply when anything in a turn throws. */
  const Apology: string := "I'm having a little trouble speaking right now. Please try again in a moment."

  /** Where an unfinished `handleNewMessage` is waiting. */
  datatype Pending = NoTurn | AwaitingReply | AwaitingSpeech(reply: string)

  /** The request sent to the conversation flow: the conversation before the new message, and the message. */
  function VoiceRequest(conversation: seq<Message>, text: string): ConversationInput
  {
    ConversationInput(conversation, text)
  }

  /**
   * The entries a user turn appends: the user's message, then the reply when
   * the conversation flow answered (`reply`), then the apology when either
   * the conversation flow or the speech flow (`audio`) threw.
   */
  function TurnEntries(text: string, reply: Option<string>, audio: Option<string>): (e: seq<Message>)
    ensures 2 <= |e| <= 3 && e[0] == Message(User, text)
  {
    [Message(User, text)] +
    match reply
    case None => [Message(Model, Apology)]
    case Some(r) => [Message(Model, r)] + (if audio.Some? then [] else [Message(Model, Apology)])
  }

  /**
   * A user turn adds two or three entries: the user's text first, all the
   * others from the model; three exactly when the reply came but speech failed;
   * the reply, when there is one, second; and the apology last whenever a
   * collaborator failed.
   */
  lemma TurnShape(text: string, reply: Option<string>, audio: Option<string>)
    ensures var e := TurnEntries(text, reply, audio);
      && |e| == (if reply.Some? && audio.None? then 3 else 2)
      && e[0] == Message(User, text)
      && (forall i :: 1 <= i < |e| ==> e[i].role == Model)
      && (reply.Some? ==> e[1].content == reply.value)
      && (reply.None? || audio.None? ==> e[|e| - 1].content == Apology)
      && (reply.Some? && audio.Some? ==> e == [Message(User, text), Message(Model, reply.value)])
  {
  }

  class VoiceAgentPage {
    var conversation: seq<Message>
    var isLoading: bool
    var isRecording: bool
    /** Whether the browser offers speech recognition (fixed when the page mounts). */
    const recognizerAvailable: bool
    /** The `src` of the hidden audio player. */
    var audioSource: Option<string>
    /** The continuation of the `handleNewMessage` in flight, if any. */
    var pending: Pending

    /** Loading is shown exactly while a turn is in flight. */
    ghost predicate Valid()
      reads this
    {
      isLoading <==> pending != NoTurn
    }

    constructor (recognizerAvailable: bool)
      ensures Valid()
      ensures this.recognizerAvailable == recognizerAvailable
      ensures conversation == [] && !isLoading && !isRecording && audioSource == None && pending == NoTurn
    {
      this.recognizerAvailable := recognizerAvailable;
      conversation := [];
      isLoading := false;
      isRecording := false;
      audioSource := None;
      pending := NoTurn;
    }

    /**
     * `handleNewMessage` up to its first `await`, as created by the render
     * whose conversation was `snapshot`: loading is set, the conversation
     * becomes the snapshot plus the message, and for a user message the
     * conversation flow is called with the snapshot as history. A model
     * message runs straight through to clearing the loading flag.
     */
    method BeginMessageWith(snapshot: seq<Message>, text: string, role: Role) returns (request: Option<ConversationInput>)
      requires Valid() && pending == NoTurn
      modifies this
      ensures Valid()
      ensures conversation == snapshot + [Message(role, text)]
      ensures role == User ==> request == Some(VoiceRequest(snapshot, text)) && pending == AwaitingReply
      ensures role == Model ==> request == None && pending == NoTurn
      ensures isRecording == old(isRecording) && audioSource == old(audioSource)
    {
      isLoading := true;
      conversation := snapshot + [Message(role, text)];
      if role == User {
        request := Some(VoiceRequest(snapshot, text));
        pending := AwaitingReply;
      } else {
        request := None;
        isLoading := false;
      }
    }

    /** `handleNewMessage` of the current render: the message is appended to the conversation shown. */
    method BeginMessage(text: string, role: Role) returns (request: Option<ConversationInput>)
      requires Valid() && pending == NoTurn
      modifies this
      ensures Valid()
      ensures conversation == old(conversation) + [Message(role, text)]
      ensures role == User ==> request == Some(VoiceRequest(old(conversation), text)) && pending == AwaitingReply
      ensures role == Model ==> request == None && pending == NoTurn
      ensures isRecording == old(isRecording) && audioSource == old(audioSource)
    {
      request := BeginMessageWith(conversation, text, role);
    }

    /**
     * The conversation flow settled. A reply is appended and the speech flow
     * is called with it; a failure appends the apology and ends the turn.
     */
    method ReplyArrived(reply: Option<string>) returns (speechRequest: Option<string>)
      requires Valid() && pending == AwaitingReply
      modifies this
      ensures Valid()
      ensures reply.Some? ==> conversation == old(conversation) + [Message(Model, reply.value)]
                              && pending == AwaitingSpeech(reply.value) && speechRequest == reply
      ensures reply.None? ==> conversation == old(conversation) + [Message(Model, Apology)]
                              && pending == NoTurn && speechRequest == None
      ensures isRecording == old(isRecording) && audioSource == old(audioSource)
    {
      match reply
      case Some(r) =>
        conversation := conversation + [Message(Model, r)];
        pending := AwaitingSpeech(r);
        speechRequest := Some(r);
      case None =>
        conversation := conversation + [Message(Model, Apology)];
        pending := NoTurn;
        isLoading := false;
        speechRequest := None;
    }

    /**
     * The speech flow settled. Its audio URI is given to the player; a
     * failure appends the apology after the reply. Either way the turn ends.
     */
    method SpeechArrived(audio: Option<string>)
      requires Valid() && pending.AwaitingSpeech?
      modifies this
      ensures Valid() && pending == NoTurn && !isLoading
      ensures audio.Some? ==> conversation == old(conversation) && audioSource == audio
      ensures audio.None? ==> conversation == old(conversation) + [Message(Model, Apology)]
                              && audioSource == old(audioSource)
      ensures isRecording == old(isRecording)
    {
      if audio.Some? {
        audioSource := audio;
      } else {
        conversation := conversation + [Message(Model, Apology)];
      }
      pending := NoTurn;
      isLoading := false;
    }

    /** A whole `handleNewMessage`, with the outcomes of both collaborators given. */
    method HandleNewMessage(text: string, role: Role, reply: Option<string>, audio: Option<string>)
      returns (request: Option<ConversationInput>)
      requires Valid() && pending == NoTurn
      modifies this
      ensures Valid() && pending == NoTurn && !isLoading
      ensures role == User ==> conversation == old(conversation) + TurnEntries(text, reply, audio)
                               && request == Some(VoiceRequest(old(conversation), text))
      ensures role == Model ==> conversation == old(conversation) + [Message(Model, text)] && request == None
      ensures audioSource == (if role == User && reply.Some? && audio.Some? then audio else old(audioSource))
      ensures isRecording == old(isRecording)
    {
      request := BeginMessage(text, role);
      if role == User {
        var speechRequest := ReplyArrived(reply);
        if speechRequest.Some? {
          SpeechArrived(audio);
        }
      }
    }

    /**
     * The microphone button. Without a recogniser nothing changes; while
     * recording, recognition stops; otherwise recording starts only when
     * microphone access is granted (`micGranted`).
     */
    method ToggleRecording(micGranted: bool)
      modifies this
      ensures !recognizerAvailable ==> isRecording == old(isRecording)
      ensures recognizerAvailable && old(isRecording) ==> !isRecording
      ensures recognizerAvailable && !old(isRecording) ==> isRecording == micGranted
      ensures conversation == old(conversation) && isLoading == old(isLoading)
      ensures pending == old(pending) && audioSource == old(audioSource)
    {
      if !recognizerAvailable {
        return;
      }
      if isRecording {
        isRecording := false;
      } else if micGranted {
        isRecording := true;
      }
    }

    /** A press on the microphone button, which is disabled while loading. */
    method PressMic(micGranted: bool)
      modifies this
      ensures old(isLoading) || !recognizerAvailable ==> isRecording == old(isRecording)
      ensures !old(isLoading) && recognizerAvailable ==>
        isRecording == (if old(isRecording) then false else micGranted)
      ensures conversation == old(conversation) && isLoading == old(isLoading)
      ensures pending == old(pending) && audioSource == old(audioSource)
    {
      if !isLoading {
        ToggleRecording(micGranted);
      }
    }

    /** The recogniser reported an error: recording stops. */
    method OnError()
      modifies this
      ensures !isRecording
      ensures conversation == old(conversation) && isLoading == old(isLoading)
      ensures pending == old(pending) && audioSource == old(audioSource)
    {
      isRecording := false;
    }

    /** The recogniser ended its session: recording stops. */
    method OnEnd()
      modifies this
      ensures !isRecording
      ensures conversation == old(conversation) && isLoading == old(isLoading)
      ensures pending == old(pending) && audioSource == old(audioSource)
    {
      isRecording := false;
    }

    /**
     * The recogniser delivered results, as written: the handler is installed
     * once when the page mounts, so it runs the `handleNewMessage` of the
     * first render, whose conversation was empty. The first alternative of
     * the first result starts a user turn from an empty history and replaces
     * the transcript; with no result the handler throws before changing
     * anything.
     */
    method OnResultAsWritten(results: seq<seq<string>>) returns (request: Option<ConversationInput>)
      requires Valid() && pending == NoTurn
      modifies this
      ensures Valid()
      ensures |results| > 0 && |results[0]| > 0 ==>
        conversation == [Message(User, results[0][0])]
        && request == Some(VoiceRequest([], results[0][0]))
        && pending == AwaitingReply && isLoading
      ensures !(|results| > 0 && |results[0]| > 0) ==>
        conversation == old(conversation) && request == None && pending == NoTurn
      ensures isRecording == old(isRecording) && audioSource == old(audioSource)
    {
      if |results| > 0 && |results[0]| > 0 {
        request := BeginMessageWith([], results[0][0], User);
      } else {
        request := None;
      }
    }

    /**
     * The recogniser delivered results, handled by the current render's
     * `handleNewMessage`: the first alternative of the first result is
     * appended to the conversation and sent with it as history.
     */
    method OnResult(results: seq<seq<string>>) returns (request: Option<ConversationInput>)
      requires Valid() && pending == NoTurn
      modifies this
      ensures Valid()
      ensures |results| > 0 && |results[0]| > 0 ==>
        conversation == old(conversation) + [Message(User, results[0][0])]
        && request == Some(VoiceRequest(old(conversation), results[0][0]))
        && pending == AwaitingReply && isLoading
      ensures !(|results| > 0 && |results[0]| > 0) ==>
        conversation == old(conversation) && request == None && pending == NoTurn
      ensures isRecording == old(isRecording) && audioSource == old(audioSource)
    {
      if |results| > 0 && |results[0]| > 0 {
        request := BeginMessage(results[0][0], User);
      } else {
        request := None;
      }
    }
  }

  /**
   * Two spoken turns on a fresh page, the first answered with `reply` and
   * `audio`. As written, the second turn is sent with an empty history and
   * the transcript afterwards holds only the second utterance; with the
   * current render's handler the second turn carries the first turn's
   * entries and the transcript keeps them.
   */
  method TwoUtterances(first: string, second: string, reply: Option<string>, audio: Option<string>)
    returns (asWritten: ConversationInput, shownAsWritten: seq<Message>,
             corrected: ConversationInput, shownCorrected: seq<Message>)
    ensures asWritten == ConversationInput([], second)
    ensures shownAsWritten == [Message(User, second)]
    ensures corrected == ConversationInput(TurnEntries(first, reply, audio), second)
    ensures shownCorrected == TurnEntries(first, reply, audio) + [Message(User, second)]
  {
    var p := new VoiceAgentPage(true);
    var r := p.OnResultAsWritten([[first]]);
    var speech := p.ReplyArrived(reply);
    if speech.Some? {
      p.SpeechArrived(audio);
    }
    r := p.OnResultAsWritten([[second]]);
    asWritten, shownAsWritten := r.value, p.conversation;

    var q := new VoiceAgentPage(true);
    r := q.OnResult([[first]]);
    speech := q.ReplyArrived(reply);
    if speech.Some? {
      q.SpeechArrived(audio);
    }
    assert q.conversation == TurnEntries(first, reply, audio);
    r := q.OnResult([[second]]);
    corrected, shownCorrected := r.value, q.conversation;
  }
}
