/** `handle_call` of app.py as a function of the request and of what the vendors return:
    validate, then transcribe, generate, synthesize and route, stopping at the first
    stage that raises. */
module Pipeline {
  import opened Outcomes
  import opened Text
  import opened Router
  import opened Validation
  import opened Stages

  const ProcessingErrorMessage := "Erro no processamento da chamada."
  const ProcessedStatus := "processed"

  /** The JSON bodies `handle_call` answers with. */
  datatype Body =
    | ErrorBody(error: string)
    | FailureBody(error: string, detail: string)
    | Processed(status: string, transcription: string, response: string, audioFile: string, routingResponse: string)

  datatype Response = Response(code: int, body: Body)

  /** One request handled: the response, the calls made in order, the temp-file effect. */
  datatype Exchange = Exchange(response: Response, calls: seq<Call>, temp: TempEffect)

  /** The `except Exception as e` branch: 500 with the exception text as detail. */
  function ProcessingFailure(detail: string): Response {
    Response(500, FailureBody(ProcessingErrorMessage, detail))
  }

  function Handle(v: Vendors, req: Request): Exchange {
    match Validate(req)
    case Rejected(message) => Exchange(Response(400, ErrorBody(message)), [], NoTempFile)
    case Accepted(caller, callee, url) =>
      var t := TranscribeStep(v, url);
      if t.result.Err? then Exchange(ProcessingFailure(t.result.msg), t.calls, t.temp) else
      var g := GenerateStep(v, t.result.value);
      if g.result.Err? then Exchange(ProcessingFailure(g.result.msg), t.calls + g.calls, t.temp) else
      var s := SynthesizeStep(v, g.result.value, DefaultOutputFile);
      if s.result.Err? then Exchange(ProcessingFailure(s.result.msg), t.calls + g.calls + s.calls, t.temp) else
      var body := Processed(ProcessedStatus, t.result.value, g.result.value, s.result.value, RouteCall(caller, callee));
      Exchange(Response(200, body), t.calls + g.calls + s.calls + [Route(caller, callee)], t.temp)
  }

  /** The position of each kind of call in the fixed order of the pipeline. */
  function StageIndex(c: Call): nat {
    match c
    case Fetch(_) => 0
    case Transcribe(_, _) => 1
    case Complete(_) => 2
    case Synthesize(_, _, _) => 3
    case Route(_, _) => 4
  }

  /** A missing or empty field is answered with 400 before anything is called. */
  lemma MissingFieldRejected(v: Vendors, req: Request)
    requires !FieldsPresent(req)
    ensures Handle(v, req) == Exchange(Response(400, ErrorBody(MissingFieldsMessage)), [], NoTempFile)
  {
  }

  /** With every field present, a URL of another scheme is answered with the other 400,
      again before anything is called. */
  lemma NonWebUrlRejected(v: Vendors, req: Request)
    requires FieldsPresent(req) && !WebUrl(req.audioUrl.value)
    ensures Handle(v, req) == Exchange(Response(400, ErrorBody(InvalidUrlMessage)), [], NoTempFile)
  {
  }

  /** The response is 400 exactly when validation fails, and then no call has been made;
      otherwise it is 200 or 500. */
  lemma StatusCodes(v: Vendors, req: Request)
    ensures Handle(v, req).response.code in {200, 400, 500}
    ensures Handle(v, req).response.code == 400 <==> Validate(req).Rejected?
    ensures Handle(v, req).response.code == 400 <==> Handle(v, req).calls == []
  {
  }

  /** The calls an accepted request makes when no stage raises, in order. */
  function FullRun(v: Vendors, req: Request): seq<Call>
    requires Validate(req).Accepted?
  {
    var a := Validate(req);
    var audio := if v.fetch(a.audioUrl).Downloaded? then v.fetch(a.audioUrl).audio else [];
    var text := if v.whisper(WhisperModel, audio).Transcribed? then v.whisper(WhisperModel, audio).text else "";
    var reply := if v.chat(ChatRequestFor(text)).Ok? then Strip(v.chat(ChatRequestFor(text)).value) else "";
    [Fetch(a.audioUrl), Transcribe(WhisperModel, audio), Complete(ChatRequestFor(text)),
     Synthesize(reply, SpeechLanguage, DefaultOutputFile), Route(a.caller, a.callee)]
  }

  /** The full run visits the five stages once each, in the order of the pipeline. */
  lemma FullRunStages(v: Vendors, req: Request)
    requires Validate(req).Accepted?
    ensures |FullRun(v, req)| == 5
    ensures forall i :: 0 <= i < 5 ==> StageIndex(FullRun(v, req)[i]) == i
  {
  }

  /** Whatever the vendors do, the calls made are the full run cut short: the stages run
      in the fixed order and none after a stage that raised. */
  lemma StagesInOrder(v: Vendors, req: Request)
    ensures Validate(req).Rejected? ==> Handle(v, req).calls == []
    ensures Validate(req).Accepted? ==> Handle(v, req).calls <= FullRun(v, req)
  {
  }

  /** The i-th call a request makes is always to the i-th stage of the pipeline: fetch,
      transcribe, complete, synthesize, route, each at most once and none skipped. */
  lemma CallsInStageOrder(v: Vendors, req: Request)
    ensures |Handle(v, req).calls| <= 5
    ensures forall i :: 0 <= i < |Handle(v, req).calls| ==> StageIndex(Handle(v, req).calls[i]) == i
  {
    StagesInOrder(v, req);
    if Validate(req).Accepted? {
      FullRunStages(v, req);
    }
  }

  /** All calls but the last one. */
  function Init(calls: seq<Call>): seq<Call> {
    if calls == [] then [] else calls[..|calls| - 1]
  }

  /** What the last call raised, if there is a last call and it raised. */
  function LastRaised(v: Vendors, calls: seq<Call>): Option<string> {
    if calls == [] then None else Raised(v, calls[|calls| - 1])
  }

  /** Every call but the last returned normally: nothing runs after a call that raised. */
  lemma FailureStopsPipeline(v: Vendors, req: Request)
    ensures forall c :: c in Init(Handle(v, req).calls) ==> Raised(v, c) == None
  {
    // The lemma holds without this walk through the paths; spelling out each path's
    // calls keeps the solver's work well below what it needs unaided.
    var e := Handle(v, req);
    match Validate(req)
    case Rejected(_) =>
    case Accepted(caller, callee, url) =>
      var t := TranscribeStep(v, url);
      if t.result.Ok? {
        var audio := v.fetch(url).audio;
        assert Raised(v, Fetch(url)) == None && Raised(v, Transcribe(WhisperModel, audio)) == None;
        var g := GenerateStep(v, t.result.value);
        if g.result.Ok? {
          assert Raised(v, Complete(ChatRequestFor(t.result.value))) == None;
          var s := SynthesizeStep(v, g.result.value, DefaultOutputFile);
          if s.result.Ok? {
            assert Raised(v, Synthesize(g.result.value, SpeechLanguage, DefaultOutputFile)) == None;
            assert Init(e.calls) == t.calls + g.calls + s.calls;
          } else {
            assert Init(e.calls) == t.calls + g.calls;
          }
        } else {
          assert Init(e.calls) == t.calls;
        }
      } else if v.fetch(url).Downloaded? {
        assert Raised(v, Fetch(url)) == None;
        assert Init(e.calls) == [Fetch(url)];
      }
  }

  /** The response is 500 exactly when the last call raised, and then it carries that
      call's exception text as detail. */
  lemma FailureIsProcessingError(v: Vendors, req: Request)
    ensures Handle(v, req).response.code == 500 <==> LastRaised(v, Handle(v, req).calls).Some?
    ensures LastRaised(v, Handle(v, req).calls).Some? ==>
              Handle(v, req).response == ProcessingFailure(LastRaised(v, Handle(v, req).calls).value)
  {
    // As above: the per-path assertions are there to keep the proof cheap.
    var e := Handle(v, req);
    match Validate(req)
    case Rejected(_) =>
      assert e.calls == [] && e.response.code == 400;
    case Accepted(caller, callee, url) =>
      var t := TranscribeStep(v, url);
      if t.result.Err? {
        assert e == Exchange(ProcessingFailure(t.result.msg), t.calls, t.temp);
        assert LastRaised(v, t.calls) == Some(t.result.msg);
        assert LastRaised(v, e.calls) == Some(t.result.msg);
      } else {
        var g := GenerateStep(v, t.result.value);
        if g.result.Err? {
          assert e.calls == t.calls + g.calls;
          assert e.calls[|e.calls| - 1] == Complete(ChatRequestFor(t.result.value));
          assert LastRaised(v, e.calls) == Some(g.result.msg);
          assert e.response == ProcessingFailure(g.result.msg);
        } else {
          var s := SynthesizeStep(v, g.result.value, DefaultOutputFile);
          var synthesis := Synthesize(g.result.value, SpeechLanguage, DefaultOutputFile);
          if s.result.Err? {
            assert e.calls == t.calls + g.calls + s.calls;
            assert e.calls[|e.calls| - 1] == synthesis;
            var o := v.tts(g.result.value, SpeechLanguage, DefaultOutputFile);
            assert o.Err? && o.msg == s.result.msg;
            assert ErrorOf(o) == Some(s.result.msg);
            assert Raised(v, synthesis) == Some(s.result.msg);
            assert LastRaised(v, e.calls) == Some(s.result.msg);
            assert e.response == ProcessingFailure(s.result.msg);
          } else {
            assert e.calls == t.calls + g.calls + s.calls + [Route(caller, callee)];
            assert e.calls[|e.calls| - 1] == Route(caller, callee);
            assert e.response.code == 200;
          }
        }
      }
  }

  /** When every stage returns, the response carries exactly what each stage produced, the
      generator got the transcription, the synthesizer got the reply, and the temporary
      audio file is gone. */
  lemma SuccessAssemblesStageOutputs(v: Vendors, req: Request, audio: Bytes, text: string, content: string)
    requires Validate(req).Accepted?
    requires v.fetch(Validate(req).audioUrl) == Downloaded(audio)
    requires v.whisper(WhisperModel, audio) == Transcribed(text)
    requires v.chat(ChatRequestFor(text)) == Ok(content)
    requires v.tts(Strip(content), SpeechLanguage, DefaultOutputFile).Ok?
    ensures var a := Validate(req);
      Handle(v, req) == Exchange(
        Response(200, Processed(ProcessedStatus, text, Strip(content), DefaultOutputFile, RouteCall(a.caller, a.callee))),
        [Fetch(a.audioUrl), Transcribe(WhisperModel, audio), Complete(ChatRequestFor(text)),
         Synthesize(Strip(content), SpeechLanguage, DefaultOutputFile), Route(a.caller, a.callee)],
        TempRemoved)
  {
  }

  /** A 200 response only comes from a request on which every stage returned. */
  lemma SuccessNeedsEveryStage(v: Vendors, req: Request)
    requires Handle(v, req).response.code == 200
    ensures Validate(req).Accepted? && v.fetch(Validate(req).audioUrl).Downloaded?
    ensures var audio := v.fetch(Validate(req).audioUrl).audio;
      v.whisper(WhisperModel, audio).Transcribed?
      && v.chat(ChatRequestFor(v.whisper(WhisperModel, audio).text)).Ok?
      && v.tts(Strip(v.chat(ChatRequestFor(v.whisper(WhisperModel, audio).text)).value),
               SpeechLanguage, DefaultOutputFile).Ok?
  {
  }

  /** On success the reply has no surrounding whitespace, the audio file is always
      output.mp3, and the routing message is the one for the dialled number. */
  lemma ProcessedBodyShape(v: Vendors, req: Request)
    requires Handle(v, req).response.code == 200
    ensures var b := Handle(v, req).response.body;
      b.Processed? && b.status == ProcessedStatus && Trimmed(b.response)
      && b.audioFile == DefaultOutputFile
      && b.routingResponse == RouteCall(req.caller.value, req.callee.value)
  {
  }

  /** A request leaves its temporary file behind only when it fails with 500 during
      transcription; a processed request leaves none, and a rejected one never made one. */
  lemma TempFileOutcome(v: Vendors, req: Request)
    ensures Handle(v, req).response.code == 200 ==> Handle(v, req).temp == TempRemoved
    ensures Handle(v, req).response.code == 400 ==> Handle(v, req).temp == NoTempFile
    ensures Handle(v, req).temp.TempLeft? ==>
              Handle(v, req).response.code == 500 && |Handle(v, req).calls| <= 2
  {
  }
}
