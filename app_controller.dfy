/**
 * The component's three state cells as mutable fields, and `handleGenerate`
 * as the sequence of updates it makes to them across its try/catch/finally.
 */
module AppController {
  import opened Wrappers
  import opened AppState
  import opened AppView

  class Controller {
    var generatedImage: Option<string>
    var isLoading: bool
    var error: Option<string>

    /** The current value of the three cells. */
    function State(): UiState
      reads this
    {
      UiState(generatedImage, isLoading, error)
    }

    /** The cells as first rendered: no image, not loading, no error. */
    constructor ()
      ensures State() == Initial
      ensures Consistent(State()) && Decode(State()) == Idle
    {
      generatedImage := None;
      isLoading := false;
      error := None;
    }

    /** Marks the run as loading and clears the previous image and error; only reachable while the trigger is enabled. */
    method Begin()
      requires !TriggerDisabled(State())
      modifies this
      ensures State() == Step(old(State()), Event.Begin)
      ensures isLoading && error == None && generatedImage == None
    {
      isLoading := true;
      error := None;
      generatedImage := None;
    }

    /** Stores the data URI for the service's payload. */
    method Succeed(imageB64: string)
      modifies this
      ensures State() == Step(old(State()), Event.Succeed(imageB64))
      ensures generatedImage == Some(JpegDataUriPrefix + imageB64)
      ensures isLoading == old(isLoading) && error == old(error)
    {
      generatedImage := Some(DataUri(imageB64));
    }

    /** Stores the thrown `Error`'s message, or the fallback for any other thrown value. */
    method Fail(thrown: Thrown)
      modifies this
      ensures State() == Step(old(State()), Event.Fail(thrown))
      ensures thrown.ErrorValue? ==> error == Some(thrown.message)
      ensures thrown.NonErrorValue? ==> error == Some(UnknownErrorMessage)
      ensures isLoading == old(isLoading) && generatedImage == old(generatedImage)
    {
      error := Some(ErrorMessage(thrown));
    }

    /** The `finally` block: loading is over. */
    method Settle()
      modifies this
      ensures State() == Step(old(State()), Event.Settle)
      ensures !isLoading
      ensures generatedImage == old(generatedImage) && error == old(error)
    {
      isLoading := false;
    }

    /**
     * One run: Begin, await the service, store its payload or its error, and
     * settle on both paths. The service's answer is the `outcome` parameter.
     */
    method HandleGenerate(outcome: Outcome)
      requires !TriggerDisabled(State())
      modifies this
      ensures State() == Generate(old(State()), outcome)
      ensures Consistent(State()) && !isLoading
      ensures outcome.Resolved? ==> generatedImage == Some(DataUri(outcome.imageB64)) && error == None
      ensures outcome.Rejected? ==> generatedImage == None && error == Some(ErrorMessage(outcome.thrown))
    {
      Begin();
      match outcome {
        case Resolved(imageB64) =>
          Succeed(imageB64);
        case Rejected(thrown) =>
          Fail(thrown);
      }
      Settle();
    }
  }

  /** A page that is used twice: the second run leaves no trace of the first. */
  method TwoRuns(first: Outcome, second: Outcome)
  {
    var c := new Controller();
    c.HandleGenerate(first);
    assert !TriggerDisabled(c.State());
    c.HandleGenerate(second);
    RunAllKeepsLastOutcome(Initial, [first, second]);
    assert c.State() == RunAll(Initial, [first, second]) == Settled(second);
  }
}
