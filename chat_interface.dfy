/**
 * The chat form (frontend/components/ChatInterface.tsx): the text field's
 * `input` state, the submit handler's guard, and when the two controls are
 * disabled. The `onSendMessage` callback is modelled by what the handler
 * passes to it.
 */
module ChatInterface {
  import opened Wrappers
  import opened Text

  /** Whether the submit button and the text field are disabled. */
  datatype Controls = Controls(submitDisabled: bool, fieldDisabled: bool)

  /**
   * The field is disabled exactly while a send is loading; the button also
   * whenever the input holds nothing but whitespace.
   */
  function ControlsFor(input: string, isLoading: bool): (c: Controls)
    ensures c.fieldDisabled == isLoading
    ensures c.submitDisabled <==> isLoading || forall k :: 0 <= k < |input| ==> IsSpace(JavaScript, input[k])
  {
    Controls(JsTrim(input) == [] || isLoading, isLoading)
  }

  class ChatForm {
    var input: string

    constructor ()
      ensures input == ""
    {
      input := "";
    }

    /** The field's change handler. */
    method Change(value: string)
      modifies this
      ensures input == value
    {
      input := value;
    }

    /**
     * `handleSubmit`: a blank input sends nothing and stays as it is;
     * otherwise the trimmed input is sent once and the field is cleared. What
     * is sent is never blank and has nothing left to trim.
     */
    method HandleSubmit() returns (sent: Option<string>)
      modifies this
      ensures JsTrim(old(input)) == [] ==> sent == None && input == old(input)
      ensures JsTrim(old(input)) != [] ==> sent == Some(JsTrim(old(input))) && input == ""
      ensures sent.Some? ==> sent.value != [] && JsTrim(sent.value) == sent.value
    {
      var trimmed := JsTrim(input);
      if trimmed != [] {
        TrimIdempotent(JavaScript, input);
        sent := Some(trimmed);
        input := "";
      } else {
        sent := None;
      }
    }
  }

  /** While the button is enabled, pressing it sends: the guard of the handler passes. */
  lemma EnabledButtonSends(input: string, isLoading: bool)
    requires !ControlsFor(input, isLoading).submitDisabled
    ensures JsTrim(input) != [] && !ControlsFor(input, isLoading).fieldDisabled
  {
  }
}
