/** The request handler of app.py with its side effects: the temporary audio files that
    `_transcribe_audio_openai` creates and removes, and a record of every call made to an
    external collaborator or to the router. */
module Server {
  import opened Outcomes
  import opened Text
  import opened Router
  import opened Validation
  import opened Stages
  import opened Pipeline

  /** A file made by `tempfile.NamedTemporaryFile(delete=False, suffix='.mp3')`; the
      number stands for the unique name the library picks. */
  datatype TempPath = TempPath(id: nat)

  /** The temporary files after a request whose effect on them was `effect`, when the
      file it would create is `path`. */
  function AfterTemp(files: map<TempPath, Bytes>, path: TempPath, effect: TempEffect): map<TempPath, Bytes> {
    match effect
    case TempLeft(content) => files[path := content]
    case _ => files
  }

  class CallServer {
    const vendors: Vendors
    /** The temporary files on disk and their contents. */
    var tempFiles: map<TempPath, Bytes>
    /** The next unused temporary name. */
    var nextTemp: nat
    /** Every call made so far, in order. */
    ghost var calls: seq<Call>

    ghost predicate Valid()
      reads this
    {
      forall p :: p in tempFiles ==> p.id < nextTemp
    }

    constructor (vendors: Vendors)
      ensures Valid() && this.vendors == vendors
      ensures tempFiles == map[] && calls == []
    {
      this.vendors := vendors;
      tempFiles := map[];
      nextTemp := 0;
      calls := [];
    }

    /** `NamedTemporaryFile(delete=False)`: a new, empty file under a name not in use. */
    method NewTempFile() returns (path: TempPath)
      requires Valid()
      modifies this`tempFiles, this`nextTemp
      ensures Valid()
      ensures path == TempPath(old(nextTemp)) && path !in old(tempFiles)
      ensures tempFiles == old(tempFiles)[path := []] && nextTemp == old(nextTemp) + 1
    {
      path := TempPath(nextTemp);
      tempFiles := tempFiles[path := []];
      nextTemp := nextTemp + 1;
    }

    /** `temp_audio_file.write(data)`: appends to the file. */
    method WriteFile(path: TempPath, data: Bytes)
      requires Valid() && path in tempFiles
      modifies this`tempFiles
      ensures Valid()
      ensures tempFiles == old(tempFiles)[path := old(tempFiles)[path] + data]
    {
      tempFiles := tempFiles[path := tempFiles[path] + data];
    }

    /** `os.remove(path)`. */
    method RemoveFile(path: TempPath)
      requires Valid() && path in tempFiles
      modifies this`tempFiles
      ensures Valid()
      ensures tempFiles == old(tempFiles) - {path}
    {
      tempFiles := tempFiles - {path};
    }

    /** `_transcribe_audio_openai(audio_url)`: download into a new temporary file, hand the
        file to the transcription vendor, remove the file only once the vendor has returned,
        and only then read the text of what it returned. */
    method TranscribeAudio(url: string) returns (r: Outcome<string>)
      requires Valid()
      modifies this`tempFiles, this`nextTemp, this`calls
      ensures Valid() && nextTemp >= old(nextTemp)
      ensures var step := TranscribeStep(vendors, url);
        r == step.result && calls == old(calls) + step.calls
        && tempFiles == AfterTemp(old(tempFiles), TempPath(old(nextTemp)), step.temp)
    {
      calls := calls + [Fetch(url)];
      var download := vendors.fetch(url);
      if download.RequestFailed? {
        return Err(download.reason);
      }
      var path := NewTempFile();
      if download.ReadFailed? {
        return Err(download.reason);
      }
      WriteFile(path, download.audio);
      var audio := tempFiles[path];
      assert audio == download.audio;
      calls := calls + [Transcribe(WhisperModel, audio)];
      var transcript := vendors.whisper(WhisperModel, audio);
      if transcript.CallFailed? {
        return Err(transcript.reason);
      }
      RemoveFile(path);
      assert tempFiles == old(tempFiles);
      if transcript.TextUnreadable? {
        return Err(transcript.reason);
      }
      return Ok(transcript.text);
    }

    /** `_generate_response_openai(prompt)`. */
    method GenerateResponse(prompt: string) returns (r: Outcome<string>)
      modifies this`calls
      ensures r == GenerateStep(vendors, prompt).result
      ensures calls == old(calls) + GenerateStep(vendors, prompt).calls
    {
      var request := ChatRequestFor(prompt);
      calls := calls + [Complete(request)];
      var completion := vendors.chat(request);
      if completion.Err? {
        return Err(completion.msg);
      }
      return Ok(Strip(completion.value));
    }

    /** `_text_to_speech_gtts(text, output_file='output.mp3')`. */
    method TextToSpeech(text: string, outputFile: string := DefaultOutputFile) returns (r: Outcome<string>)
      modifies this`calls
      ensures r == SynthesizeStep(vendors, text, outputFile).result
      ensures calls == old(calls) + SynthesizeStep(vendors, text, outputFile).calls
    {
      calls := calls + [Synthesize(text, SpeechLanguage, outputFile)];
      var saved := vendors.tts(text, SpeechLanguage, outputFile);
      if saved.Err? {
        return Err(saved.msg);
      }
      return Ok(outputFile);
    }

    /** `handle_call()`: validate, then run the stages in order, answering 500 with the
        exception text as soon as one raises. */
    method HandleCall(req: Request) returns (response: Response)
      requires Valid()
      modifies this`tempFiles, this`nextTemp, this`calls
      ensures Valid()
      ensures var e := Handle(vendors, req);
        response == e.response && calls == old(calls) + e.calls
        && tempFiles == AfterTemp(old(tempFiles), TempPath(old(nextTemp)), e.temp)
    {
      match Validate(req)
      case Rejected(message) =>
        return Response(400, ErrorBody(message));
      case Accepted(caller, callee, audioUrl) =>
        var transcription := TranscribeAudio(audioUrl);
        if transcription.Err? {
          return ProcessingFailure(transcription.msg);
        }
        var reply := GenerateResponse(transcription.value);
        if reply.Err? {
          return ProcessingFailure(reply.msg);
        }
        var audioFile := TextToSpeech(reply.value);
        if audioFile.Err? {
          return ProcessingFailure(audioFile.msg);
        }
        calls := calls + [Route(caller, callee)];
        var routing := RouteCall(caller, callee);
        return Response(200, Processed(ProcessedStatus, transcription.value, reply.value, audioFile.value, routing));
    }
  }
}
