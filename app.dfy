/**
 * The state of the password-list generator and its three request handlers. Each handler
 * runs to completion as one method: the awaited remote call is replaced by an outcome the
 * caller supplies, so a handler is a fixed sequence of writes to the state slots.
 */
module PasswordApp {
  import opened Wrappers
  import opened JsText
  import opened Prompts
  import opened GeminiApi
  import opened Validation

  /** One remote call: the prompt sent and the three loading flags at the moment it was sent. */
  datatype ApiCall = ApiCall(prompt: string, loadingSamples: bool, loadingTarget: bool, loadingLength: bool)

  /** What a mode's result slot holds after a call: the reply when it is truthy, else the cleared slot. */
  function ResultSlot(reply: Option<string>): (r: string)
    ensures r != [] <==> IsTruthy(reply)
    ensures IsTruthy(reply) ==> r == reply.value
  {
    if IsTruthy(reply) then reply.value else ""
  }

  /**
   * After a call, the result slot and the error message are never both set; both stay
   * empty exactly when the service answered in the accepted shape with an empty or missing text.
   */
  lemma ResultAndErrorExclusive(outcome: FetchOutcome)
    ensures !(ResultSlot(Reply(outcome)) != [] && ErrorAfterCall(outcome) != [])
    ensures ResultSlot(Reply(outcome)) == [] && ErrorAfterCall(outcome) == [] <==>
      Interpret(outcome).Success? && !IsTruthy(Interpret(outcome).value)
  {
  }

  class App {
    // Form inputs.
    var samplePasswords: string
    var deviceManufacturer: string
    var deviceModel: string
    var commonUsernames: string
    var passwordLength: string
    var numPasswordsToGenerate: int
    var characterType: string

    // Per-mode results and loading flags.
    var generatedSamplePasswords: string
    var loadingSamples: bool
    var generatedTargetCredentials: string
    var loadingTarget: bool
    var generatedLengthPasswords: string
    var loadingLength: bool

    /** The one error message shared by all modes. */
    var errorMessage: string

    /** Every remote call made so far, oldest first. */
    ghost var calls: seq<ApiCall>

    /** No request is in flight: every mode's loading flag is down. */
    predicate Idle()
      reads this`loadingSamples, this`loadingTarget, this`loadingLength
    {
      !loadingSamples && !loadingTarget && !loadingLength
    }

    /** The initial state: empty fields, ten passwords, mixed characters, nothing loading. */
    constructor ()
      ensures samplePasswords == "" && deviceManufacturer == "" && deviceModel == ""
      ensures commonUsernames == "" && passwordLength == ""
      ensures numPasswordsToGenerate == 10 && characterType == "mixed"
      ensures generatedSamplePasswords == "" && generatedTargetCredentials == "" && generatedLengthPasswords == ""
      ensures !loadingSamples && !loadingTarget && !loadingLength
      ensures errorMessage == "" && calls == []
      ensures Idle()
    {
      samplePasswords, deviceManufacturer, deviceModel, commonUsernames := "", "", "", "";
      passwordLength, numPasswordsToGenerate, characterType := "", 10, "mixed";
      generatedSamplePasswords, generatedTargetCredentials, generatedLengthPasswords := "", "", "";
      loadingSamples, loadingTarget, loadingLength := false, false, false;
      errorMessage := "";
      calls := [];
    }

    /** The samples text area changed. */
    method SetSamplePasswords(value: string)
      modifies this`samplePasswords
      ensures samplePasswords == value
    {
      samplePasswords := value;
    }

    /** The manufacturer field changed. */
    method SetDeviceManufacturer(value: string)
      modifies this`deviceManufacturer
      ensures deviceManufacturer == value
    {
      deviceManufacturer := value;
    }

    /** The model field changed. */
    method SetDeviceModel(value: string)
      modifies this`deviceModel
      ensures deviceModel == value
    {
      deviceModel := value;
    }

    /** The usernames field changed. */
    method SetCommonUsernames(value: string)
      modifies this`commonUsernames
      ensures commonUsernames == value
    {
      commonUsernames := value;
    }

    /** The length field changed; its text is kept as typed and parsed only by the handler. */
    method SetPasswordLength(value: string)
      modifies this`passwordLength
      ensures passwordLength == value
    {
      passwordLength := value;
    }

    /** The count field changed: `parseInt(value) || 0`. */
    method SetNumPasswordsToGenerate(value: string)
      modifies this`numPasswordsToGenerate
      ensures numPasswordsToGenerate == CountFromInput(value)
    {
      numPasswordsToGenerate := CountFromInput(value);
    }

    /** The character-type selector changed. */
    method SetCharacterType(value: string)
      modifies this`characterType
      ensures characterType == value
    {
      characterType := value;
    }

    /**
     * `callGeminiAPI(prompt)`: clears the error message, makes one call, and either returns
     * the reply or records the prefixed failure message and returns null.
     */
    method CallGeminiApi(prompt: string, outcome: FetchOutcome) returns (reply: Option<string>)
      modifies this`errorMessage, this`calls
      ensures calls == old(calls) + [ApiCall(prompt, loadingSamples, loadingTarget, loadingLength)]
      ensures errorMessage == ErrorAfterCall(outcome)
      ensures reply == Reply(outcome)
    {
      errorMessage := "";
      calls := calls + [ApiCall(prompt, loadingSamples, loadingTarget, loadingLength)];
      match Interpret(outcome)
      case Success(text) =>
        reply := text;
      case Failure(message) =>
        errorMessage := FailurePrefix + message;
        reply := None;
    }

    /**
     * Generate variations of the sample passwords. Blank samples only set the error message;
     * otherwise the call is made with the samples loading flag up, the slot holds the truthy
     * reply (or stays cleared), and the flag is down again at the end.
     */
    method HandleGenerateSamples(outcome: FetchOutcome)
      modifies this`loadingSamples, this`generatedSamplePasswords, this`errorMessage, this`calls
      ensures AllWhitespace(samplePasswords) ==>
        errorMessage == SamplesMissing && calls == old(calls) &&
        loadingSamples == old(loadingSamples) && generatedSamplePasswords == old(generatedSamplePasswords)
      ensures !AllWhitespace(samplePasswords) ==>
        calls == old(calls) + [ApiCall(SamplesPrompt(samplePasswords), true, loadingTarget, loadingLength)] &&
        errorMessage == ErrorAfterCall(outcome) &&
        generatedSamplePasswords == ResultSlot(Reply(outcome)) && !loadingSamples
      ensures unchanged(this`generatedTargetCredentials, this`loadingTarget)
      ensures unchanged(this`generatedLengthPasswords, this`loadingLength)
      ensures old(Idle()) ==> Idle()
    {
      var rejected := CheckSamples(samplePasswords);
      if rejected.Some? {
        errorMessage := rejected.value;
        return;
      }
      RunSamplesCall(SamplesPrompt(samplePasswords), outcome);
    }

    /** The samples request once validated: loading flag up, slot cleared, one call, slot filled from a truthy reply, flag down. */
    method RunSamplesCall(prompt: string, outcome: FetchOutcome)
      modifies this`loadingSamples, this`generatedSamplePasswords, this`errorMessage, this`calls
      ensures calls == old(calls) + [ApiCall(prompt, true, loadingTarget, loadingLength)]
      ensures errorMessage == ErrorAfterCall(outcome)
      ensures generatedSamplePasswords == ResultSlot(Reply(outcome)) && !loadingSamples
    {
      loadingSamples := true;
      generatedSamplePasswords := "";
      var reply := CallGeminiApi(prompt, outcome);
      if IsTruthy(reply) {
        generatedSamplePasswords := reply.value;
      }
      loadingSamples := false;
    }

    /**
     * Generate default credentials for a target device. Rejected only when all three fields
     * are blank; otherwise the same bracket around the call as for samples, on the target slots.
     */
    method HandleGenerateTargetInfo(outcome: FetchOutcome)
      modifies this`loadingTarget, this`generatedTargetCredentials, this`errorMessage, this`calls
      ensures AllWhitespace(deviceManufacturer) && AllWhitespace(deviceModel) && AllWhitespace(commonUsernames) ==>
        errorMessage == TargetMissing && calls == old(calls) &&
        loadingTarget == old(loadingTarget) && generatedTargetCredentials == old(generatedTargetCredentials)
      ensures !(AllWhitespace(deviceManufacturer) && AllWhitespace(deviceModel) && AllWhitespace(commonUsernames)) ==>
        calls == old(calls) +
          [ApiCall(TargetPrompt(deviceManufacturer, deviceModel, commonUsernames), loadingSamples, true, loadingLength)] &&
        errorMessage == ErrorAfterCall(outcome) &&
        generatedTargetCredentials == ResultSlot(Reply(outcome)) && !loadingTarget
      ensures unchanged(this`generatedSamplePasswords, this`loadingSamples)
      ensures unchanged(this`generatedLengthPasswords, this`loadingLength)
      ensures old(Idle()) ==> Idle()
    {
      var rejected := CheckTarget(deviceManufacturer, deviceModel, commonUsernames);
      if rejected.Some? {
        errorMessage := rejected.value;
        return;
      }
      RunTargetCall(TargetPrompt(deviceManufacturer, deviceModel, commonUsernames), outcome);
    }

    /** The target request once validated, bracketed like `RunSamplesCall` on the target slots. */
    method RunTargetCall(prompt: string, outcome: FetchOutcome)
      modifies this`loadingTarget, this`generatedTargetCredentials, this`errorMessage, this`calls
      ensures calls == old(calls) + [ApiCall(prompt, loadingSamples, true, loadingLength)]
      ensures errorMessage == ErrorAfterCall(outcome)
      ensures generatedTargetCredentials == ResultSlot(Reply(outcome)) && !loadingTarget
    {
      loadingTarget := true;
      generatedTargetCredentials := "";
      var reply := CallGeminiApi(prompt, outcome);
      if IsTruthy(reply) {
        generatedTargetCredentials := reply.value;
      }
      loadingTarget := false;
    }

    /**
     * Generate passwords of a given length. The length is checked before the count, and a
     * rejection only sets the error message; otherwise the prompt names the count and the
     * parsed length, and the call is bracketed by the length loading flag.
     */
    method HandleGenerateByLength(outcome: FetchOutcome)
      modifies this`loadingLength, this`generatedLengthPasswords, this`errorMessage, this`calls
      ensures !LengthInRange(passwordLength) ==>
        errorMessage == LengthOutOfRange && calls == old(calls) &&
        loadingLength == old(loadingLength) && generatedLengthPasswords == old(generatedLengthPasswords)
      ensures LengthInRange(passwordLength) && !CountInRange(numPasswordsToGenerate) ==>
        errorMessage == CountOutOfRange && calls == old(calls) &&
        loadingLength == old(loadingLength) && generatedLengthPasswords == old(generatedLengthPasswords)
      ensures LengthInRange(passwordLength) && CountInRange(numPasswordsToGenerate) ==>
        calls == old(calls) + [ApiCall(
          LengthPrompt(numPasswordsToGenerate as nat, ParseInt(passwordLength).value as nat, characterType),
          loadingSamples, loadingTarget, true)] &&
        errorMessage == ErrorAfterCall(outcome) &&
        generatedLengthPasswords == ResultSlot(Reply(outcome)) && !loadingLength
      ensures unchanged(this`generatedSamplePasswords, this`loadingSamples)
      ensures unchanged(this`generatedTargetCredentials, this`loadingTarget)
      ensures old(Idle()) ==> Idle()
    {
      var checked := CheckLength(passwordLength, numPasswordsToGenerate);
      if checked.Failure? {
        errorMessage := checked.error;
        return;
      }
      RunLengthCall(LengthPrompt(numPasswordsToGenerate as nat, checked.value, characterType), outcome);
    }

    /** The by-length request once validated, bracketed like `RunSamplesCall` on the length slots. */
    method RunLengthCall(prompt: string, outcome: FetchOutcome)
      modifies this`loadingLength, this`generatedLengthPasswords, this`errorMessage, this`calls
      ensures calls == old(calls) + [ApiCall(prompt, loadingSamples, loadingTarget, true)]
      ensures errorMessage == ErrorAfterCall(outcome)
      ensures generatedLengthPasswords == ResultSlot(Reply(outcome)) && !loadingLength
    {
      loadingLength := true;
      generatedLengthPasswords := "";
      var reply := CallGeminiApi(prompt, outcome);
      if IsTruthy(reply) {
        generatedLengthPasswords := reply.value;
      }
      loadingLength := false;
    }
  }

  /**
   * Samples "password123" and a server answering 500 with message "overloaded": the shared
   * error names the status and the message, and the samples slot stays empty.
   */
  method SamplesServerErrorScenario() returns (app: App)
    ensures app.errorMessage == "Failed to generate: API error: 500 - overloaded"
    ensures app.generatedSamplePasswords == "" && !app.loadingSamples
    ensures |app.calls| == 1
  {
    app := new App();
    app.SetSamplePasswords("password123");
    assert !IsJsWhitespace(app.samplePasswords[0]);
    OverloadedServerError();
    app.HandleGenerateSamples(Responded(500, Json(None, ErrorObject(Some("overloaded")))));
  }

  /** The text shown for a 500 reply whose error message is "overloaded". */
  lemma OverloadedServerError()
    ensures ErrorAfterCall(Responded(500, Json(None, ErrorObject(Some("overloaded")))))
            == "Failed to generate: API error: 500 - overloaded"
  {
    var outcome := Responded(500, Json(None, ErrorObject(Some("overloaded"))));
    var shown := "API error: 500 - overloaded";
    OverloadedApiErrorText();
    assert Interpret(outcome) == Failure(shown);
    assert ErrorAfterCall(outcome) == FailurePrefix + shown;
  }

  /** The API error text for status 500 and message "overloaded". */
  lemma OverloadedApiErrorText()
    ensures ApiErrorText(500, Some("overloaded")) == "API error: 500 - overloaded"
  {
    assert Decimal(5) == "5";
    assert Decimal(50) == Decimal(5) + "0";
    assert Decimal(500) == Decimal(50) + "0";
  }

  /** A length of 3 is rejected before any call is made. */
  method ShortLengthScenario() returns (app: App)
    ensures app.errorMessage == LengthOutOfRange
    ensures app.calls == [] && !app.loadingLength && app.generatedLengthPasswords == ""
  {
    app := new App();
    app.SetPasswordLength("3");
    assert Decimal(3) == "3";
    TypedLengthRejected(3, app.numPasswordsToGenerate);
    app.HandleGenerateByLength(Rejected("unused"));
  }
}
