/**
 * The generation lifecycle of the thumbnail page: the three state cells the
 * component keeps, the four steps `handleGenerate` takes through them, and the
 * tagged lifecycle (idle, loading, succeeded, failed) that the cells encode.
 */
module AppState {
  import opened Wrappers

  /** The prefix that turns the service's base64 payload into a displayable JPEG. */
  const JpegDataUriPrefix: string := "data:image/jpeg;base64,"

  /** The message stored when the thrown value is not an `Error`. */
  const UnknownErrorMessage: string := "An unknown error occurred."

  /** The three state cells: `generatedImage`, `isLoading` and `error`. */
  datatype UiState = UiState(generatedImage: Option<string>, isLoading: bool, error: Option<string>)

  /** The value the cells start with: no image, not loading, no error. */
  const Initial: UiState := UiState(None, false, None)

  /** What the `catch` block receives: an `Error` instance with its message, or anything else. */
  datatype Thrown = ErrorValue(message: string) | NonErrorValue

  /** How the call to the remote image service settles. */
  datatype Outcome = Resolved(imageB64: string) | Rejected(thrown: Thrown)

  /** The steps of one run of `handleGenerate`. */
  datatype Event = Begin | Succeed(imageB64: string) | Fail(thrown: Thrown) | Settle

  /** The data URI stored for a successful payload. */
  function DataUri(imageB64: string): string
  {
    JpegDataUriPrefix + imageB64
  }

  /** The text the `catch` block stores for a thrown value. */
  function ErrorMessage(thrown: Thrown): string
  {
    match thrown
    case ErrorValue(message) => message
    case NonErrorValue => UnknownErrorMessage
  }

  /** One step of the state machine; each step writes only the cells it names. */
  function Step(s: UiState, e: Event): UiState
  {
    match e
    case Begin => UiState(None, true, None)
    case Succeed(imageB64) => s.(generatedImage := Some(DataUri(imageB64)))
    case Fail(thrown) => s.(error := Some(ErrorMessage(thrown)))
    case Settle => s.(isLoading := false)
  }

  /** The step the `try` or the `catch` block takes for an outcome. */
  function OutcomeEvent(o: Outcome): Event
  {
    match o
    case Resolved(imageB64) => Succeed(imageB64)
    case Rejected(thrown) => Fail(thrown)
  }

  /**
   * Reference definition of the state a run settles in: it depends on the
   * outcome alone.
   */
  function Settled(o: Outcome): UiState
  {
    match o
    case Resolved(imageB64) => UiState(Some(DataUri(imageB64)), false, None)
    case Rejected(thrown) => UiState(None, false, Some(ErrorMessage(thrown)))
  }

  /**
   * One complete, non-overlapping run of `handleGenerate`: Begin, then the
   * step for the outcome, then the `finally` block. The trigger is disabled
   * while loading, so a run starts from a state that is not loading.
   */
  function Generate(s: UiState, o: Outcome): (r: UiState)
    requires !s.isLoading
    ensures r == Settled(o)
    ensures !r.isLoading
    ensures r.generatedImage.Some? <==> o.Resolved?
    ensures r.error.Some? <==> o.Rejected?
  {
    Step(Step(Step(s, Begin), OutcomeEvent(o)), Settle)
  }

  /** A sequence of runs, each one started after the previous one settled. */
  function RunAll(s: UiState, os: seq<Outcome>): (r: UiState)
    requires !s.isLoading
    ensures !r.isLoading
    decreases |os|
  {
    if os == [] then s else RunAll(Generate(s, os[0]), os[1..])
  }

  /** After any non-empty sequence of runs only the last outcome is visible. */
  lemma {:induction false} RunAllKeepsLastOutcome(s: UiState, os: seq<Outcome>)
    requires !s.isLoading && os != []
    ensures RunAll(s, os) == Settled(os[|os| - 1])
    decreases |os|
  {
    if |os| == 1 {
      assert os[1..] == [];
    } else {
      RunAllKeepsLastOutcome(Generate(s, os[0]), os[1..]);
      assert os[1..][|os[1..]| - 1] == os[|os| - 1];
    }
  }

  /** Begin clears both payload cells whatever the state was before. */
  lemma BeginClearsStaleResults(s: UiState)
    ensures Step(s, Begin) == UiState(None, true, None)
  {
  }

  /** Settle leaves loading off and touches nothing else, on either path. */
  lemma SettleStopsLoading(s: UiState)
    ensures !Step(s, Settle).isLoading
    ensures Step(s, Settle).generatedImage == s.generatedImage
    ensures Step(s, Settle).error == s.error
  {
  }

  /** A stored data URI is never empty and gives back its payload. */
  lemma DataUriDeterminesPayload(p: string, q: string)
    ensures DataUri(p) != ""
    ensures DataUri(p) == DataUri(q) ==> p == q
  {
    assert |DataUri(p)| == |JpegDataUriPrefix| + |p|;
    if DataUri(p) == DataUri(q) {
      assert p == DataUri(p)[|JpegDataUriPrefix|..];
      assert q == DataUri(q)[|JpegDataUriPrefix|..];
    }
  }

  /** The lifecycle the cells stand for. */
  datatype Lifecycle = Idle | Loading | Succeeded(imageUri: string) | Failed(message: string)

  /** The cells that hold a lifecycle value. */
  function Encode(l: Lifecycle): UiState
  {
    match l
    case Idle => UiState(None, false, None)
    case Loading => UiState(None, true, None)
    case Succeeded(imageUri) => UiState(Some(imageUri), false, None)
    case Failed(message) => UiState(None, false, Some(message))
  }

  /**
   * The cells stand for exactly one lifecycle value: loading carries no
   * payload, and an image and an error are never both stored.
   */
  predicate Consistent(s: UiState)
  {
    (s.isLoading ==> s.generatedImage.None? && s.error.None?)
    && (s.generatedImage.None? || s.error.None?)
  }

  /** The lifecycle value consistent cells stand for. */
  function Decode(s: UiState): (l: Lifecycle)
    requires Consistent(s)
    ensures Encode(l) == s
  {
    if s.isLoading then Loading
    else if s.generatedImage.Some? then Succeeded(s.generatedImage.value)
    else if s.error.Some? then Failed(s.error.value)
    else Idle
  }

  /** Encoding then decoding gives the lifecycle value back. */
  lemma DecodeEncode(l: Lifecycle)
    ensures Consistent(Encode(l)) && Decode(Encode(l)) == l
  {
  }

  /**
   * The states a run is in after Begin and after Settle are consistent:
   * Begin is Loading, and a run settles in Succeeded with the payload's data URI or in Failed with the
   * thrown value's message.
   */
  lemma RunLifecycle(s: UiState, o: Outcome)
    requires !s.isLoading
    ensures Consistent(Step(s, Begin)) && Decode(Step(s, Begin)) == Loading
    ensures Consistent(Generate(s, o))
    ensures Decode(Generate(s, o)) == match o
      case Resolved(imageB64) => Succeeded(DataUri(imageB64))
      case Rejected(thrown) => Failed(ErrorMessage(thrown))
  {
  }

  /** After any sequence of runs from a consistent state the cells are consistent and not loading. */
  lemma {:induction false} RunAllConsistent(s: UiState, os: seq<Outcome>)
    requires !s.isLoading && Consistent(s)
    ensures Consistent(RunAll(s, os))
    ensures os == [] ==> Decode(RunAll(s, os)) == Decode(s)
    ensures os != [] ==> Decode(RunAll(s, os)) != Idle && Decode(RunAll(s, os)) != Loading
  {
    if os != [] {
      RunAllKeepsLastOutcome(s, os);
    }
  }

  /** The worked examples: a resolved payload, an `Error`, a non-`Error` and an `Error` with no message. */
  lemma Scenarios(s: UiState)
    requires !s.isLoading
    ensures Generate(s, Resolved("QUJD")).generatedImage == Some("data:image/jpeg;base64,QUJD")
    ensures Generate(s, Rejected(ErrorValue("rate limited"))).error == Some("rate limited")
    ensures Generate(s, Rejected(NonErrorValue)).error == Some("An unknown error occurred.")
    ensures Generate(s, Rejected(ErrorValue(""))).error == Some("")
  {
    assert JpegDataUriPrefix + "QUJD" == "data:image/jpeg;base64,QUJD";
  }
}
