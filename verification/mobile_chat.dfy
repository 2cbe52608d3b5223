/**
 * The mobile group chat screen: a list of messages, starting with three
 * canned ones, and one text input. Sending appends the typed text as the
 * user's message unless it is blank. The id is the clock's
 * `Date.now().toString()`, given as a parameter; the scroll to the end
 * after sending is left out.
 */
module ChatScreen {
  import JsText

  datatype Message = Message(id: string, sender: string, text: string)

  /** The sender name the screen gives the user's own messages. */
  const You := "You"

  const MockMessages := [
    Message("1", "Alice", "Hey, how are you?"),
    Message("2", "You", "I am good! Working on my project."),
    Message("3", "Bob", "Anyone up for a Pomodoro session?")
  ]

  class ChatScreenView {
    var messages: seq<Message>
    var input: string

    constructor ()
      ensures messages == MockMessages && input == ""
    {
      messages := MockMessages;
      input := "";
    }

    method SetInput(text: string)
      modifies this
      ensures input == text && messages == old(messages)
    {
      input := text;
    }

    /**
     * `sendMessage`: a blank input sends nothing; otherwise the text as
     * typed goes after every existing message, which are all kept as they
     * were, and the input is cleared.
     */
    method SendMessage(id: string)
      modifies this
      ensures JsText.AllSpace(old(input)) ==> messages == old(messages) && input == old(input)
      ensures !JsText.AllSpace(old(input)) ==>
        messages == old(messages) + [Message(id, You, old(input))] && input == ""
      ensures |messages| >= |old(messages)| && messages[..|old(messages)|] == old(messages)
    {
      JsText.TrimEmptyIffBlank(input);
      if JsText.Trim(input) == "" {
        return;
      }
      messages := messages + [Message(id, You, input)];
      input := "";
    }
  }
}
