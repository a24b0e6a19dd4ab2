/**
 * The server-side voice flows: the conversation schema, the empty-output
 * check of the conversation flow, and the text-to-speech flow's resolution of
 * the media value returned by the speech model into PCM bytes and then into a
 * `data:audio/wav;base64,...` URI (RFC 2397 `data:` scheme, RFC 4648 base64).
 * The models themselves, the network and the WAV writer are parameters.
 */
module VoiceAgentFlow {
  import opened Options
  import opened Text
  import Base64

  type Byte = Base64.Byte

  /** Who wrote a conversation entry. */
  datatype Role = User | Model

  /** One conversation entry. */
  datatype Message = Message(role: Role, content: string)

  /** Input of the conversation flow: earlier entries and the latest utterance. */
  datatype ConversationInput = ConversationInput(history: seq<Message>, currentInput: string)

  /** Output of the conversation flow. */
  datatype ConversationOutput = ConversationOutput(response: string)

  /** The errors the two flows raise. */
  datatype FlowError =
    | NoPromptOutput         // the conversation prompt produced no output
    | NoAudio                // the speech model returned no media
    | DataUriWithoutPayload  // a `data:` URL without a comma: `split(',')[1]` is undefined and Buffer.from throws
    | MalformedBase64        // base64 text that is not well formed (see the README: outside the model)
    | NetworkError           // `fetch` itself rejected
    | FetchFailed            // the fetched response was not ok
    | UnexpectedFormat       // no usable `data` or `url`

  /** The text of the error each flow throws, where the flow gives one. */
  function ErrorText(e: FlowError): (t: Option<string>)
    ensures t.Some? <==> e in {NoPromptOutput, NoAudio, FetchFailed, UnexpectedFormat}
  {
    match e
    case NoPromptOutput => Some("voiceAgentPrompt returned no output")
    case NoAudio => Some("No audio was generated from the TTS model.")
    case FetchFailed => Some("Failed to fetch TTS audio from URL.")
    case UnexpectedFormat => Some("Unexpected TTS output format from model.")
    case _ => None
  }

  datatype Result<T> = Ok(value: T) | Err(error: FlowError)

  /** The conversation flow: the prompt's output, or an error when it produced none. */
  function VoiceAgent(output: Option<ConversationOutput>): (r: Result<ConversationOutput>)
    ensures r.Err? <==> output.None?
    ensures r.Err? ==> r.error == NoPromptOutput
    ensures r.Ok? ==> r.value == output.value
  {
    match output
    case None => Err(NoPromptOutput)
    case Some(o) => Ok(o)
  }

  /**
   * The media part of the speech model's answer: `data` is present only when
   * it is a string, `url` only when it is a string.
   */
  datatype Media = Media(data: Option<string>, url: Option<string>)

  /** What `fetch` gives for a URL: a response with its status flag and body, or a rejection. */
  datatype FetchResponse = Response(ok: bool, body: seq<Byte>) | Rejected

  /** Base64 text to bytes, failing on text that is not well formed. */
  function DecodeBase64(text: string): (r: Result<seq<Byte>>)
    ensures r.Ok? <==> Base64.Decode(text).Some?
    ensures r.Ok? ==> r.value == Base64.Decode(text).value
    ensures r.Err? ==> r.error == MalformedBase64
  {
    match Base64.Decode(text)
    case Some(bytes) => Ok(bytes)
    case None => Err(MalformedBase64)
  }

  /** `/^https?:\/\//`. */
  predicate IsHttpUrl(url: string) {
    StartsWith(url, "http://") || StartsWith(url, "https://")
  }

  /** A non-empty inline base64 `data` string. */
  predicate HasInlineData(m: Media) {
    m.data.Some? && |m.data.value| > 0
  }

  /**
   * The PCM bytes of the media value, trying in order: non-empty inline
   * `data`; a `url` starting with `data:`, whose second comma-separated field
   * is decoded; an `http(s)://` `url`, which is fetched; anything else fails.
   */
  function AudioBytes(m: Media, fetch: string -> FetchResponse): (r: Result<seq<Byte>>)
    ensures r.Err? ==> r.error !in {NoPromptOutput, NoAudio}
    ensures r.Err? && r.error in {NetworkError, FetchFailed} ==>
      !HasInlineData(m) && m.url.Some? && IsHttpUrl(m.url.value)
    ensures r.Err? && r.error == DataUriWithoutPayload ==>
      !HasInlineData(m) && m.url.Some? && StartsWith(m.url.value, "data:") && ',' !in m.url.value
  {
    if HasInlineData(m) then DecodeBase64(m.data.value)
    else if m.url.Some? && StartsWith(m.url.value, "data:") then
      match SecondField(m.url.value)
      case None => Err(DataUriWithoutPayload)
      case Some(payload) => DecodeBase64(payload)
    else if m.url.Some? && IsHttpUrl(m.url.value) then
      match fetch(m.url.value)
      case Rejected => Err(NetworkError)
      case Response(ok, body) => if ok then Ok(body) else Err(FetchFailed)
    else Err(UnexpectedFormat)
  }

  /** The format handed to the WAV writer: mono, 24000 Hz, 16-bit. */
  datatype WavFormat = WavFormat(channels: nat, sampleRate: nat, bitDepth: nat)

  const SpeechFormat: WavFormat := WavFormat(1, 24000, 16)

  /** The media type of the audio the speech flow returns. */
  const WavMime: string := "audio/wav"

  /** The prefix of every audio URI the speech flow returns: `data:audio/wav;base64,`. */
  const WavUriPrefix: string := Base64Head(WavMime) + ","

  /** The prefix is the literal text the speech flow writes. */
  lemma WavUriPrefixText()
    ensures WavUriPrefix == "data:audio/wav;base64,"
  {
  }

  /** The playable URI for the bytes of a WAV file. */
  function WavDataUri(wav: seq<Byte>): (uri: string)
    ensures uri == WavUriPrefix + Base64.Encode(wav)
    ensures StartsWith(uri, WavUriPrefix)
    ensures Base64.Decode(uri[|WavUriPrefix|..]) == Some(wav)
  {
    Base64.DecodeEncode(wav);
    var uri := WavUriPrefix + Base64.Encode(wav);
    assert uri[|WavUriPrefix|..] == Base64.Encode(wav);
    uri
  }

  /**
   * The speech flow: missing media fails with "No audio was generated...";
   * otherwise the media's bytes are written as a WAV file in `SpeechFormat`
   * (the writer is the parameter `toWav`) and returned as a data URI.
   */
  function TextToSpeech(media: Option<Media>, fetch: string -> FetchResponse,
                        toWav: (WavFormat, seq<Byte>) -> seq<Byte>): (r: Result<string>)
    ensures media.None? ==> r == Err(NoAudio)
    ensures media.Some? && AudioBytes(media.value, fetch).Err? ==> r == Err(AudioBytes(media.value, fetch).error)
    ensures media.Some? && AudioBytes(media.value, fetch).Ok? ==>
      r.Ok? && r.value == WavDataUri(toWav(SpeechFormat, AudioBytes(media.value, fetch).value)) &&
      StartsWith(r.value, WavUriPrefix) &&
      Base64.Decode(r.value[|WavUriPrefix|..]) == Some(toWav(SpeechFormat, AudioBytes(media.value, fetch).value))
  {
    match media
    case None => Err(NoAudio)
    case Some(m) =>
      match AudioBytes(m, fetch)
      case Err(e) => Err(e)
      case Ok(pcm) => Ok(WavDataUri(toWav(SpeechFormat, pcm)))
  }

  // ---- Properties of the resolution order ----

  /** A non-empty inline `data` string decides the result whatever `url` is and whatever the network does. */
  lemma InlineDataWins(d: string, url1: Option<string>, url2: Option<string>,
                       fetch1: string -> FetchResponse, fetch2: string -> FetchResponse)
    requires d != ""
    ensures AudioBytes(Media(Some(d), url1), fetch1) == AudioBytes(Media(Some(d), url2), fetch2) == DecodeBase64(d)
  {
  }

  /** An empty `data` string is treated as no `data` at all. */
  lemma EmptyDataFallsThrough(url: Option<string>, fetch: string -> FetchResponse)
    ensures AudioBytes(Media(Some(""), url), fetch) == AudioBytes(Media(None, url), fetch)
  {
  }

  /** A `data:` URL is decoded from its second comma-separated field and never reaches the network. */
  lemma DataUriDecoded(url: string, fetch1: string -> FetchResponse, fetch2: string -> FetchResponse)
    requires StartsWith(url, "data:")
    ensures AudioBytes(Media(None, Some(url)), fetch1) == AudioBytes(Media(None, Some(url)), fetch2)
    ensures ',' !in url ==> AudioBytes(Media(None, Some(url)), fetch1) == Err(DataUriWithoutPayload)
    ensures ',' in url ==> AudioBytes(Media(None, Some(url)), fetch1) == DecodeBase64(SecondField(url).value)
  {
  }

  /** An `http(s)://` URL is fetched: an ok response gives its body, a non-ok one fails with "Failed to fetch...". */
  lemma HttpUrlFetched(url: string, fetch: string -> FetchResponse)
    requires IsHttpUrl(url)
    ensures fetch(url).Response? && fetch(url).ok ==> AudioBytes(Media(None, Some(url)), fetch) == Ok(fetch(url).body)
    ensures fetch(url).Response? && !fetch(url).ok ==> AudioBytes(Media(None, Some(url)), fetch) == Err(FetchFailed)
    ensures fetch(url).Rejected? ==> AudioBytes(Media(None, Some(url)), fetch) == Err(NetworkError)
  {
    assert !StartsWith(url, "data:") by {
      assert url[0] == 'h';
    }
  }

  /** The only way to reach "Unexpected TTS output format" is to have no usable `data` and a `url` that is neither `data:` nor `http(s)://`. */
  lemma UnexpectedFormatExactly(m: Media, fetch: string -> FetchResponse)
    ensures AudioBytes(m, fetch) == Err(UnexpectedFormat) <==>
      !HasInlineData(m) && (m.url.None? || (!StartsWith(m.url.value, "data:") && !IsHttpUrl(m.url.value)))
  {
  }

  /** A `data:` URL whose first comma is followed by the encoding of `b` resolves to `b`. */
  lemma {:induction false} DataUriRoundTrip(head: string, b: seq<Byte>, fetch: string -> FetchResponse)
    requires StartsWith(head, "data:") && ',' !in head
    ensures AudioBytes(Media(None, Some(head + "," + Base64.Encode(b))), fetch) == Ok(b)
  {
    var payload := Base64.Encode(b);
    var url := head + "," + payload;
    Base64.DecodeEncode(b);
    Base64.EncodeHasNoComma(b);
    assert url == head + "," + payload + "";
    SecondFieldOfJoin(head, payload, "");
    assert url[..5] == head[..5];
  }

  /**
   * Wrapped and unwrapped forms agree: the bytes `b` given as inline base64
   * and the same bytes given as a `data:<mime>;base64,` URI resolve alike.
   * (Inline data must be non-empty to be taken, so `b` must be too.)
   */
  lemma {:induction false} WrappedAndUnwrappedAgree(b: seq<Byte>, mime: string, fetch: string -> FetchResponse)
    requires b != []
    requires ',' !in mime
    ensures AudioBytes(Media(Some(Base64.Encode(b)), None), fetch) == Ok(b)
    ensures AudioBytes(Media(None, Some("data:" + mime + ";base64," + Base64.Encode(b))), fetch) == Ok(b)
  {
    Base64.DecodeEncode(b);
    assert |Base64.Encode(b)| > 0;
    var head := Base64Head(mime);
    assert "data:" + mime + ";base64," + Base64.Encode(b) == head + "," + Base64.Encode(b);
    DataUriRoundTrip(head, b, fetch);
  }

  /** The header `data:<mime>;base64` of a base64 data URI, which has no comma when the media type has none. */
  function Base64Head(mime: string): (head: string)
    requires ',' !in mime
    ensures head == "data:" + mime + ";base64"
    ensures StartsWith(head, "data:") && ',' !in head
  {
    var head := "data:" + mime + ";base64";
    assert ',' !in head by {
      forall i | 0 <= i < |head| ensures head[i] != ',' {
        if 5 <= i < 5 + |mime| { assert head[i] == mime[i - 5]; }
      }
    }
    assert head[..5] == "data:";
    head
  }

  /** A WAV data URI, read back as media, yields the WAV bytes it carries. */
  lemma WavUriReadable(wav: seq<Byte>, fetch: string -> FetchResponse)
    ensures AudioBytes(Media(None, Some(WavDataUri(wav))), fetch) == Ok(wav)
  {
    var head := Base64Head(WavMime);
    assert WavDataUri(wav) == head + "," + Base64.Encode(wav);
    DataUriRoundTrip(head, wav, fetch);
  }

  /** The speech flow's own output, handed back to it as a media `url`, resolves to the WAV bytes it carries. */
  lemma OutputIsReadableMedia(media: Option<Media>, fetch: string -> FetchResponse,
                              toWav: (WavFormat, seq<Byte>) -> seq<Byte>)
    requires TextToSpeech(media, fetch, toWav).Ok?
    ensures AudioBytes(Media(None, Some(TextToSpeech(media, fetch, toWav).value)), fetch) ==
            Ok(toWav(SpeechFormat, AudioBytes(media.value, fetch).value))
  {
    WavUriReadable(toWav(SpeechFormat, AudioBytes(media.value, fetch).value), fetch);
  }
}
