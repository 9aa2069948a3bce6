/**
 * The AI advisor (components/AiAdvisor.tsx): the rendering of the
 * advisor's Markdown reply into blocks, and the chat history with its
 * handlers and its copy in local storage.
 *
 * The reply of the advice service is a parameter (`Reply`): the service,
 * the prompt's JSON rendering of the user's data and the network are not
 * part of this model.
 */
module Advisor {
  import opened Wrappers
  import opened Strings
  import Seqs

  // parseMarkdown.

  /** What a line of the reply renders as. */
  datatype Block = Heading3(text: string) | Heading2(text: string) | Bullet(text: string)
                 | Numbered(text: string) | Paragraph(text: string)

  predicate IsDigit(c: char) {
    '0' <= c <= '9'
  }

  /** The number of decimal digits `s` starts with. */
  function DigitRun(s: string): (n: nat)
    ensures n <= |s|
    ensures forall k :: 0 <= k < n ==> IsDigit(s[k])
    ensures n < |s| ==> !IsDigit(s[n])
  {
    if s != [] && IsDigit(s[0]) then 1 + DigitRun(s[1..]) else 0
  }

  /** `/^\d+\.\s/`: one or more digits, a full stop, then a white-space character. */
  predicate IsNumberedItem(line: string) {
    var n := DigitRun(line);
    1 <= n && n + 1 < |line| && line[n] == '.' && IsSpace(line[n + 1])
  }

  /** `line.substring(line.indexOf(' ') + 1)`: the text after the first space, or all of it when there is none. */
  function AfterFirstSpace(line: string): (r: string)
    ensures ' ' !in line ==> r == line
    ensures ' ' in line ==> exists k :: 0 <= k < |line| && line[k] == ' ' && ' ' !in line[..k] && r == line[k + 1..]
  {
    line[IndexOf(line, ' ') + 1..]
  }

  predicate NotBlank(raw: string) {
    Trim(raw) != ""
  }

  /**
   * One line, trimmed, classified in order: "### " heading, "## "
   * heading, "* " bullet, numbered item, nothing for a blank line, and a
   * paragraph otherwise.
   */
  function ParseLine(raw: string): (r: Option<Block>)
    ensures r == None <==> !NotBlank(raw)
    ensures r.Some? && r.value.Heading3? ==> Trim(raw) == "### " + r.value.text
    ensures r.Some? && r.value.Heading2? ==> Trim(raw) == "## " + r.value.text && !StartsWith(Trim(raw), "### ")
    ensures r.Some? && r.value.Bullet? ==> Trim(raw) == "* " + r.value.text
    ensures r.Some? && r.value.Numbered? ==> IsNumberedItem(Trim(raw)) && !StartsWith(Trim(raw), "* ")
    ensures r.Some? && r.value.Numbered? ==> r.value.text == AfterFirstSpace(Trim(raw))
    ensures r.Some? && r.value.Paragraph? ==> r.value.text == Trim(raw) && !IsNumberedItem(Trim(raw))
    ensures r.Some? && r.value.Paragraph? ==> !StartsWith(Trim(raw), "## ") && !StartsWith(Trim(raw), "### ") && !StartsWith(Trim(raw), "* ")
  {
    var line := Trim(raw);
    if StartsWith(line, "### ") then
      assert line == line[..4] + line[4..];
      Some(Heading3(line[4..]))
    else if StartsWith(line, "## ") then
      assert line == line[..3] + line[3..];
      Some(Heading2(line[3..]))
    else if StartsWith(line, "* ") then
      assert line == line[..2] + line[2..];
      Some(Bullet(line[2..]))
    else if IsNumberedItem(line) then Some(Numbered(AfterFirstSpace(line)))
    else if line == "" then None
    else Some(Paragraph(line))
  }

  /** `.filter(Boolean)`: the blocks, dropping the blank lines. */
  function Present(xs: seq<Option<Block>>): (bs: seq<Block>)
    ensures |bs| <= |xs|
  {
    if xs == [] then []
    else (if xs[0].Some? then [xs[0].value] else []) + Present(xs[1..])
  }

  /** `parseMarkdown`: the reply split into lines, each line parsed, blank lines dropped. */
  function ParseMarkdown(text: string): seq<Block> {
    Present(Seqs.Map(Split(text, '\n'), ParseLine))
  }

  /** Parsing a line in front of others puts its parse in front of theirs. */
  lemma MapParseCons(h: string, t: seq<string>)
    ensures Seqs.Map([h] + t, ParseLine) == [ParseLine(h)] + Seqs.Map(t, ParseLine)
  {
  }

  /** `.filter(Boolean)` on a parse in front of others: it is kept exactly when it is a block. */
  lemma PresentCons(x: Option<Block>, xs: seq<Option<Block>>)
    ensures Present([x] + xs) == (if x.Some? then [x.value] else []) + Present(xs)
  {
    assert ([x] + xs)[1..] == xs;
  }

  /** The blocks are the parses of the lines that are not blank, one each, in line order. */
  lemma {:induction false} PresentFollowsLines(lines: seq<string>)
    ensures var blocks, kept := Present(Seqs.Map(lines, ParseLine)), Seqs.Filter(lines, NotBlank);
      |blocks| == |kept| && forall k :: 0 <= k < |blocks| ==> ParseLine(kept[k]) == Some(blocks[k])
  {
    if lines != [] {
      var h, t := lines[0], lines[1..];
      PresentFollowsLines(t);
      assert lines == [h] + t;
      MapParseCons(h, t);
      PresentCons(ParseLine(h), Seqs.Map(t, ParseLine));
      Seqs.FilterCons(h, t, NotBlank);
    }
  }

  /** One block per line that is not blank once trimmed. */
  lemma PresentCountsNotBlank(lines: seq<string>)
    ensures |Present(Seqs.Map(lines, ParseLine))| == |Seqs.Filter(lines, NotBlank)|
  {
    PresentFollowsLines(lines);
  }

  /** Every block comes from one of the lines. */
  lemma {:induction false} PresentComesFromLines(lines: seq<string>)
    ensures forall b :: b in Present(Seqs.Map(lines, ParseLine)) ==> exists k :: 0 <= k < |lines| && ParseLine(lines[k]) == Some(b)
  {
    if lines != [] {
      var t := lines[1..];
      PresentComesFromLines(t);
      var blocks := Present(Seqs.Map(lines, ParseLine));
      var rest := Present(Seqs.Map(t, ParseLine));
      assert Seqs.Map(lines, ParseLine)[1..] == Seqs.Map(t, ParseLine);
      forall b | b in blocks
        ensures exists k :: 0 <= k < |lines| && ParseLine(lines[k]) == Some(b)
      {
        if b !in rest {
          assert ParseLine(lines[0]) == Some(b);
        } else {
          var k :| 0 <= k < |t| && ParseLine(t[k]) == Some(b);
          assert ParseLine(lines[k + 1]) == Some(b);
        }
      }
    }
  }

  /** The reply renders as one block per line that is not blank once trimmed, each coming from one of its lines. */
  lemma ParseMarkdownCount(text: string)
    ensures var lines := Split(text, '\n');
      |ParseMarkdown(text)| == |Seqs.Filter(lines, NotBlank)| &&
      forall b :: b in ParseMarkdown(text) ==> exists k :: 0 <= k < |lines| && ParseLine(lines[k]) == Some(b)
    ensures var kept := Seqs.Filter(Split(text, '\n'), NotBlank);
      forall k :: 0 <= k < |ParseMarkdown(text)| ==> ParseLine(kept[k]) == Some(ParseMarkdown(text)[k])
  {
    PresentFollowsLines(Split(text, '\n'));
    PresentCountsNotBlank(Split(text, '\n'));
    PresentComesFromLines(Split(text, '\n'));
  }

  // The chat history.

  datatype Role = UserRole | ModelRole

  datatype Message = Message(role: Role, content: string)

  /** What the advice service answered: its text, or the message of the error it threw. */
  datatype Reply = Success(text: string) | Failure(message: string)

  /** `err.message || t('advisor.error')`: the error's own message, or the translated fallback when it has none. */
  function ErrorText(message: string, fallback: string): (e: string)
    ensures message != "" ==> e == message
    ensures message == "" ==> e == fallback
  {
    if message != "" then message else fallback
  }

  /** What local storage holds under the user's history key: the history, or no entry when it is empty. */
  function Stored(messages: seq<Message>): (s: Option<seq<Message>>)
    ensures s == None <==> messages == []
  {
    if |messages| > 0 then Some(messages) else None
  }

  /** What the component loads from local storage: the saved history, or an empty one. */
  function Restored(saved: Option<seq<Message>>): seq<Message> {
    saved.GetOr([])
  }

  /** Saving a history and loading it back gives the same history, empty or not. */
  lemma StoreRoundTrip(messages: seq<Message>)
    ensures Restored(Stored(messages)) == messages
  {
  }

  /** `!userInput.trim() || isLoading` fails: there is something to send and no reply is awaited. */
  predicate CanSend(userInput: string, isLoading: bool) {
    Trim(userInput) != "" && !isLoading
  }

  /** The advisor's state, and what local storage holds for this user. */
  class AdvisorChat {
    var messages: seq<Message>
    var userInput: string
    var isLoading: bool
    var error: string
    /** The entry under `ai_advisor_history_<userId>`, kept in step with `messages`. */
    var stored: Option<seq<Message>>
    /** The history a send in flight rolls back to when it fails. */
    var rollback: seq<Message>

    /** Storage holds the current history, or nothing when it is empty. */
    predicate Synced()
      reads this
    {
      stored == Stored(messages)
    }

    /** Mounting: the saved history, if any, is loaded, and storage then mirrors it. */
    constructor (saved: Option<seq<Message>>)
      ensures messages == Restored(saved) && Synced()
      ensures userInput == "" && !isLoading && error == ""
    {
      messages := Restored(saved);
      userInput := "";
      isLoading := false;
      error := "";
      stored := Stored(Restored(saved));
      rollback := [];
    }

    /** Typing in the message box. */
    method Type(input: string)
      modifies this
      ensures userInput == input
      ensures messages == old(messages) && isLoading == old(isLoading) && error == old(error)
      ensures stored == old(stored) && rollback == old(rollback)
    {
      userInput := input;
    }

    /** `handleClearHistory`: the history and the error are emptied, and the stored entry removed. */
    method ClearHistory()
      modifies this
      ensures messages == [] && error == "" && stored == None && Synced()
      ensures userInput == old(userInput) && isLoading == old(isLoading) && rollback == old(rollback)
    {
      messages := [];
      error := "";
      stored := Stored(messages);
    }

    /**
     * `handleInitialAdvice`: on success the history becomes the prompt and
     * the reply; on failure the history stays and the error is set.
     */
    method InitialAdvice(prompt: string, reply: Reply, fallback: string)
      requires Synced()
      modifies this
      ensures Synced() && !isLoading
      ensures reply.Success? ==> messages == [Message(UserRole, prompt), Message(ModelRole, reply.text)] && error == ""
      ensures reply.Failure? ==> messages == old(messages) && error == ErrorText(reply.message, fallback)
      ensures userInput == old(userInput) && rollback == old(rollback)
    {
      isLoading := true;
      error := "";
      var initialHistory := [Message(UserRole, prompt)];
      if reply.Success? {
        messages := initialHistory + [Message(ModelRole, reply.text)];
        stored := Stored(messages);
      } else {
        error := ErrorText(reply.message, fallback);
      }
      isLoading := false;
    }

    /**
     * The synchronous part of `handleSendMessage`: nothing happens for a
     * blank input or while a reply is awaited; otherwise the input is
     * appended as a user message, the box cleared, and the history sent.
     */
    method StartSend() returns (request: Option<seq<Message>>)
      requires Synced()
      modifies this
      ensures Synced()
      ensures !CanSend(old(userInput), old(isLoading)) ==>
        request == None && messages == old(messages) && userInput == old(userInput) &&
        isLoading == old(isLoading) && error == old(error) && rollback == old(rollback)
      ensures CanSend(old(userInput), old(isLoading)) ==>
        request == Some(old(messages) + [Message(UserRole, old(userInput))]) &&
        messages == request.value && userInput == "" && isLoading && error == "" && rollback == old(messages)
    {
      if !CanSend(userInput, isLoading) {
        return None;
      }
      var previous := messages;
      var newMessages := previous + [Message(UserRole, userInput)];
      messages, userInput, isLoading, error, stored, rollback :=
        newMessages, "", true, "", Some(newMessages), previous;
      request := Some(newMessages);
    }

    /**
     * The reply arriving: success appends the model's answer to the
     * history as it is now; failure sets the error and puts back the
     * history from before the send.
     */
    method FinishSend(reply: Reply, fallback: string)
      requires Synced()
      modifies this
      ensures Synced() && !isLoading
      ensures reply.Success? ==> messages == old(messages) + [Message(ModelRole, reply.text)] && error == old(error)
      ensures reply.Failure? ==> messages == old(rollback) && error == ErrorText(reply.message, fallback)
      ensures userInput == old(userInput) && rollback == old(rollback)
    {
      if reply.Success? {
        messages := messages + [Message(ModelRole, reply.text)];
      } else {
        error := ErrorText(reply.message, fallback);
        messages := rollback;
      }
      stored := Stored(messages);
      isLoading := false;
    }

    /**
     * A whole send with nothing in between: a success adds the user's
     * message and the reply, a failure leaves exactly the history there
     * was, with the error set.
     */
    method SendMessage(reply: Reply, fallback: string)
      requires Synced()
      modifies this
      ensures Synced()
      ensures !CanSend(old(userInput), old(isLoading)) ==>
        messages == old(messages) && userInput == old(userInput) && error == old(error) && isLoading == old(isLoading)
      ensures CanSend(old(userInput), old(isLoading)) && reply.Success? ==>
        messages == old(messages) + [Message(UserRole, old(userInput)), Message(ModelRole, reply.text)] &&
        error == "" && userInput == "" && !isLoading
      ensures CanSend(old(userInput), old(isLoading)) && reply.Failure? ==>
        messages == old(messages) && error == ErrorText(reply.message, fallback) && userInput == "" && !isLoading
    {
      var request := StartSend();
      if request.Some? {
        FinishSend(reply, fallback);
      }
    }
  }
}
