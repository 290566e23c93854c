/** The three vendor stages of app.py (`_transcribe_audio_openai`, `_generate_response_openai`,
    `_text_to_speech_gtts`), with every vendor reduced to the outcome it returns for its input. */
module Stages {
  import opened Outcomes
  import opened Text

  newtype byte = x: int | 0 <= x < 256
  type Bytes = seq<byte>

  const WhisperModel := "whisper-1"
  const ChatModel := "gpt-3.5-turbo"
  const SystemInstruction := "Você é um assistente útil."
  const MaxTokens := 150
  const SpeechLanguage := "pt"
  /** The default of `output_file`; `handle_call` never passes another name. */
  const DefaultOutputFile := "output.mp3"

  datatype Message = Message(role: string, content: string)
  datatype ChatRequest = ChatRequest(model: string, messages: seq<Message>, maxTokens: nat)

  /** The chat completion request `_generate_response_openai` sends for a prompt. */
  function ChatRequestFor(prompt: string): ChatRequest {
    ChatRequest(ChatModel, [Message("system", SystemInstruction), Message("user", prompt)], MaxTokens)
  }

  /** What the GET of the audio URL gives: the request (or `raise_for_status`) fails before
      any file exists, reading the body fails after the temporary file was created, or
      the body arrives. */
  datatype Download = RequestFailed(reason: string) | ReadFailed(reason: string) | Downloaded(audio: Bytes)

  /** What the transcription vendor gives: `atranscribe` raises, it returns an object
      whose `text` cannot be read (which raises only after the file was removed), or
      the text of the recording. */
  datatype WhisperReply = CallFailed(reason: string) | TextUnreadable(reason: string) | Transcribed(text: string)

  /** The external collaborators, each as the outcome it gives for its input. */
  datatype Vendors = Vendors(
    fetch: string -> Download,                        // aiohttp GET of the audio
    whisper: (string, Bytes) -> WhisperReply,         // Audio.atranscribe(model, file), then .text
    chat: ChatRequest -> Outcome<string>,             // choices[0].message.content
    tts: (string, string, string) -> Outcome<()>)     // gTTS(text, lang).save(output_file)

  /** One invocation of an external collaborator or of the router, with what it was given. */
  datatype Call =
    | Fetch(url: string)
    | Transcribe(model: string, audio: Bytes)
    | Complete(request: ChatRequest)
    | Synthesize(text: string, lang: string, outputFile: string)
    | Route(caller: string, callee: string)

  function ErrorOf<T>(o: Outcome<T>): Option<string> {
    match o
    case Ok(_) => None
    case Err(m) => Some(m)
  }

  /** The exception text a call raises with, given the vendors; None if it returns normally.
      Routing never raises. */
  function Raised(v: Vendors, c: Call): Option<string> {
    match c
    case Fetch(url) =>
      (match v.fetch(url)
       case RequestFailed(m) => Some(m)
       case ReadFailed(m) => Some(m)
       case Downloaded(_) => None)
    case Transcribe(model, audio) =>
      (match v.whisper(model, audio)
       case CallFailed(m) => Some(m)
       case TextUnreadable(m) => Some(m)
       case Transcribed(_) => None)
    case Complete(request) => ErrorOf(v.chat(request))
    case Synthesize(text, lang, file) => ErrorOf(v.tts(text, lang, file))
    case Route(_, _) => None
  }

  /** What the transcription stage does to the temporary audio file: none created, one
      created and left behind with the given content, or one created and removed. */
  datatype TempEffect = NoTempFile | TempLeft(content: Bytes) | TempRemoved

  /** One stage: what it returns or raises, the calls it made, what it did to temp files. */
  datatype Step<T> = Step(result: Outcome<T>, calls: seq<Call>, temp: TempEffect)

  /** `_transcribe_audio_openai(audio_url)`. */
  function TranscribeStep(v: Vendors, url: string): Step<string> {
    match v.fetch(url)
    case RequestFailed(m) => Step(Err(m), [Fetch(url)], NoTempFile)
    case ReadFailed(m) => Step(Err(m), [Fetch(url)], TempLeft([]))
    case Downloaded(audio) =>
      var calls := [Fetch(url), Transcribe(WhisperModel, audio)];
      match v.whisper(WhisperModel, audio)
      case CallFailed(m) => Step(Err(m), calls, TempLeft(audio))
      case TextUnreadable(m) => Step(Err(m), calls, TempRemoved)
      case Transcribed(text) => Step(Ok(text), calls, TempRemoved)
  }

  /** `_generate_response_openai(prompt)`: the reply is the returned content, stripped. */
  function GenerateStep(v: Vendors, prompt: string): (r: Step<string>)
    ensures r.calls == [Complete(ChatRequestFor(prompt))] && r.temp == NoTempFile
    ensures r.result.Ok? <==> v.chat(ChatRequestFor(prompt)).Ok?
    ensures r.result.Err? ==> r.result == v.chat(ChatRequestFor(prompt))
    ensures r.result.Ok? ==> r.result.value == Strip(v.chat(ChatRequestFor(prompt)).value)
    ensures r.result.Ok? ==> Trimmed(r.result.value)
  {
    var request := ChatRequestFor(prompt);
    match v.chat(request)
    case Err(m) => Step(Err(m), [Complete(request)], NoTempFile)
    case Ok(content) => Step(Ok(Strip(content)), [Complete(request)], NoTempFile)
  }

  /** `_text_to_speech_gtts(text, output_file)`: returns the file name it saved to. */
  function SynthesizeStep(v: Vendors, text: string, outputFile: string): (r: Step<string>)
    ensures r.calls == [Synthesize(text, SpeechLanguage, outputFile)] && r.temp == NoTempFile
    ensures r.result.Ok? <==> v.tts(text, SpeechLanguage, outputFile).Ok?
    ensures r.result.Ok? ==> r.result.value == outputFile
    ensures r.result.Err? ==> r.result.msg == v.tts(text, SpeechLanguage, outputFile).msg
  {
    match v.tts(text, SpeechLanguage, outputFile)
    case Err(m) => Step(Err(m), [Synthesize(text, SpeechLanguage, outputFile)], NoTempFile)
    case Ok(_) => Step(Ok(outputFile), [Synthesize(text, SpeechLanguage, outputFile)], NoTempFile)
  }

  /** The temporary file is removed exactly when the vendor call returned, so always when
      the transcription succeeds; it is left behind, holding what was downloaded, when
      reading the body or the vendor call fails; no file exists when the request itself
      fails. */
  lemma TranscribeTempLifecycle(v: Vendors, url: string)
    ensures TranscribeStep(v, url).temp == TempRemoved <==>
              v.fetch(url).Downloaded? && !v.whisper(WhisperModel, v.fetch(url).audio).CallFailed?
    ensures TranscribeStep(v, url).result.Ok? ==> TranscribeStep(v, url).temp == TempRemoved
    ensures TranscribeStep(v, url).temp == NoTempFile <==> v.fetch(url).RequestFailed?
    ensures TranscribeStep(v, url).temp.TempLeft? ==>
              TranscribeStep(v, url).temp.content == if v.fetch(url).Downloaded? then v.fetch(url).audio else []
  {
  }

  /** The transcription is what the vendor made of exactly the downloaded bytes. */
  lemma TranscribeWhatWasDownloaded(v: Vendors, url: string)
    ensures TranscribeStep(v, url).result.Ok? <==>
              v.fetch(url).Downloaded? && v.whisper(WhisperModel, v.fetch(url).audio).Transcribed?
    ensures TranscribeStep(v, url).result.Ok? ==>
              TranscribeStep(v, url).result.value == v.whisper(WhisperModel, v.fetch(url).audio).text
  {
  }
}
