/** The error sink, as the in-memory TestReporter implements it: a counter of
    reported messages with a budget of 20. */
module Reporting {
  import opened Tokens

  /** What is reported: a lexical error kind with its column, or the text a
      parser error carries. */
  datatype Message = LexerMessage(error: ErrorType, column: int) | ParserMessage(text: string)

  const MessageLimit: nat := 20

  /** What report answers when `log` holds the messages reported so far:
      the new count stays below the limit. */
  predicate Allows(log: seq<Message>) { |log| + 1 < MessageLimit }

  /** The number of further reports that can still answer true, plus one: it
      shrinks with every report that lets the caller go on. */
  function Budget(log: seq<Message>): nat
  {
    if |log| < MessageLimit then MessageLimit - |log| else 0
  }

  class TestReporter {
    var nMessages: nat
    /** The messages reported since construction or the last clear. */
    ghost var messages: seq<Message>

    ghost predicate Valid() reads this { nMessages == |messages| }

    constructor ()
      ensures Valid() && messages == []
    {
      nMessages := 0;
      messages := [];
    }

    method Report(message: Message) returns (ok: bool)
      requires Valid()
      modifies this
      ensures Valid() && messages == old(messages) + [message]
      ensures ok == Allows(old(messages)) && ok == (nMessages < MessageLimit)
    {
      nMessages := nMessages + 1;
      messages := messages + [message];
      ok := nMessages < MessageLimit;
    }

    method HasError() returns (b: bool)
      requires Valid()
      ensures b <==> messages != []
    {
      b := nMessages > 0;
    }

    method Clear()
      requires Valid()
      modifies this
      ensures Valid() && messages == []
    {
      nMessages := 0;
      messages := [];
    }
  }
}
