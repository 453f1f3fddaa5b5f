/**
  `BlabberModel` of the Blabber chat app: the countdown that sends "3...", "2...", "1..."
  and then the message, the construction of the message `say` posts, and the rules by
  which the lines of the live chat stream become the message list.
 */
module Blabber {
  import opened Common
  import Text

  /** A chat message; `user` is None for a system message. The id and date the app attaches are not kept. */
  datatype Message = Message(user: Option<string>, message: string)

  /** The first line of the chat stream: how many users are connected. */
  datatype ServerStatus = ServerStatus(activeUsers: int)

  /**
    The errors the model throws: a request that could not be made (RequestFailed),
    "The server responded with an error." (ServerError), "No response from server."
    (NoResponse), "Invalid response from server" (InvalidResponse), and an error the
    line stream raised while it was read (StreamFailed).
   */
  datatype ChatError = RequestFailed | ServerError | NoResponse | InvalidResponse | StreamFailed(reason: string)

  // ---------------------------------------------------------------------------
  // Sending a message
  // ---------------------------------------------------------------------------

  /** What `say` does: nothing for empty text; otherwise it posts a message and checks the status. */
  datatype SayResult = NotSent | Sent(request: Message, response: Result<(), ChatError>)

  /**
    `say(_:isSystemMessage:)`, given the status the server answers the post with
    (None when the post itself threw).
   */
  function Say(text: string, isSystemMessage: bool, username: string, status: Option<int>): (r: SayResult)
    ensures r.NotSent? <==> text == ""
    ensures r.Sent? ==> r.request.message == text
    ensures r.Sent? ==> (r.request.user.None? <==> isSystemMessage)
    ensures r.Sent? && !isSystemMessage ==> r.request.user == Some(username)
    ensures r.Sent? ==> (r.response.Ok? <==> status == Some(200))
    ensures r.Sent? && status.None? ==> r.response == Err(RequestFailed)
    ensures r.Sent? && status.Some? && status.value != 200 ==> r.response == Err(ServerError)
  {
    if text == "" then NotSent
    else
      var request := Message(if isSystemMessage then None else Some(username), text);
      Sent(request, match status
        case None => Err(RequestFailed)
        case Some(code) => if code == 200 then Ok(()) else Err(ServerError))
  }

  // ---------------------------------------------------------------------------
  // The countdown
  // ---------------------------------------------------------------------------

  /** Everything the countdown stream ever yields, in order. */
  function CountdownStream(message: string): (s: seq<string>)
    ensures |s| == 4 && s[3] == ">>> " + message
    ensures forall k :: 0 <= k < 4 ==> s[k] != ""
  {
    ["3...", "2...", "1...", ">>> " + message]
  }

  /**
    The repeating one-second timer of `countdown(to:)` with the `countdown` variable its
    closure captures. `yielded` records what the stream has been given so far.
   */
  class CountdownTimer {
    const message: string
    var countdown: int
    var isValid: bool
    ghost var yielded: seq<string>

    ghost predicate Valid()
      reads this
    {
      && |yielded| <= 4
      && yielded == CountdownStream(message)[..|yielded|]
      && (isValid <==> |yielded| < 4)
      && (|yielded| <= 3 ==> countdown == 3 - |yielded|)
    }

    constructor (message: string)
      ensures Valid() && this.message == message && yielded == [] && isValid
    {
      this.message := message;
      countdown := 3;
      isValid := true;
      yielded := [];
    }

    /** One firing of the timer. An invalidated timer does not fire, so nothing is yielded. */
    method Tick() returns (y: Option<string>)
      requires Valid()
      modifies this
      ensures Valid()
      ensures y.Some? <==> old(isValid)
      ensures y.Some? ==> yielded == old(yielded) + [y.value]
      ensures y.None? ==> yielded == old(yielded)
    {
      if !isValid {
        return None;
      }
      if !(countdown > 0) {
        isValid := false;
        assert CountdownStream(message)[..4] == CountdownStream(message)[..3] + [">>> " + message];
        y := Some(">>> " + message);
        yielded := yielded + [y.value];
        return;
      }
      ghost var n := |yielded|;
      assert Text.IntToString(countdown) + "..." == CountdownStream(message)[n] by {
        if n == 0 {
          assert Text.IntToString(3) == "3";
        } else if n == 1 {
          assert Text.IntToString(2) == "2";
        } else {
          assert Text.IntToString(1) == "1";
        }
      }
      assert CountdownStream(message)[..n + 1] == CountdownStream(message)[..n] + [CountdownStream(message)[n]];
      y := Some(Text.IntToString(countdown) + "...");
      countdown := countdown - 1;
      yielded := yielded + [y.value];
    }
  }

  /** How `countdown(to:)` stands: it returned, it threw, or it still waits for the stream. */
  datatype CountdownOutcome = Returned | Threw(error: ChatError) | Waiting

  /**
    `countdown(to:)` after the timer has fired `ticks` times; `status(k)` is the server's
    answer to the k-th post (None: that post threw). Each yielded element is passed to `say` in order. The stream
    is never finished, so for a non-empty message the countdown never returns.
   */
  method Countdown(message: string, username: string, ticks: nat, status: nat -> Option<int>)
    returns (sent: seq<Message>, outcome: CountdownOutcome)
    ensures message == "" ==> sent == [] && outcome == Returned
    ensures message != "" ==> outcome != Returned
    ensures |sent| <= Min(ticks, 4)
    ensures forall k :: 0 <= k < |sent| ==> sent[k] == Message(Some(username), CountdownStream(message)[k])
    ensures forall k :: 0 <= k < |sent| - 1 ==> status(k) == Some(200)
    ensures outcome.Threw? <==> |sent| > 0 && status(|sent| - 1) != Some(200)
    ensures outcome.Threw? ==> outcome.error == (if status(|sent| - 1).None? then RequestFailed else ServerError)
    ensures outcome == Waiting ==> |sent| == Min(ticks, 4)
  {
    if message == "" {
      return [], Returned;
    }
    var timer := new CountdownTimer(message);
    sent := [];
    var t := 0;
    while t < ticks
      invariant timer.Valid() && timer.message == message
      invariant t <= ticks && |timer.yielded| == Min(t, 4)
      invariant |sent| == |timer.yielded|
      invariant forall k :: 0 <= k < |sent| ==> sent[k] == Message(Some(username), timer.yielded[k])
      invariant forall k :: 0 <= k < |sent| ==> status(k) == Some(200)
    {
      var y := timer.Tick();
      if y.Some? {
        assert y.value == CountdownStream(message)[|sent|];
        var r := Say(y.value, false, username, status(|sent|));
        sent := sent + [r.request];
        if r.response.Err? {
          return sent, Threw(r.response.error);
        }
      }
      t := t + 1;
    }
    outcome := Waiting;
  }

  // ---------------------------------------------------------------------------
  // Reading the chat stream
  // ---------------------------------------------------------------------------

  /** How the line stream ended after its last line: closed, or with an error. */
  datatype StreamEnd = Closed | Failed(reason: string)

  /** The messages the lines decode to, in arrival order; lines that do not decode are skipped. */
  function Decoded(lines: seq<string>, decode: string -> Option<Message>): (ms: seq<Message>)
    ensures |ms| <= |lines|
  {
    if lines == [] then []
    else Decoded(lines[..|lines| - 1], decode)
         + match decode(lines[|lines| - 1]) case Some(m) => [m] case None => []
  }

  /** Decoding a stream in two pieces gives the two pieces' messages one after the other. */
  lemma {:induction false} DecodedAppend(a: seq<string>, b: seq<string>, decode: string -> Option<Message>)
    ensures Decoded(a + b, decode) == Decoded(a, decode) + Decoded(b, decode)
    decreases |b|
  {
    if b == [] {
      assert a + b == a;
    } else {
      var b' := b[..|b| - 1];
      assert (a + b)[..|a + b| - 1] == a + b';
      assert (a + b)[|a + b| - 1] == b[|b| - 1];
      var last := match decode(b[|b| - 1]) case Some(m) => [m] case None => [];
      DecodedAppend(a, b', decode);
      calc {
        Decoded(a + b, decode);
        Decoded(a + b', decode) + last;
        Decoded(a, decode) + Decoded(b', decode) + last;
        Decoded(a, decode) + (Decoded(b', decode) + last);
        Decoded(a, decode) + Decoded(b, decode);
      }
    }
  }

  /** A line that does not decode leaves the message list exactly as it would be without it. */
  lemma UndecodableLineSkipped(a: seq<string>, line: string, b: seq<string>, decode: string -> Option<Message>)
    requires decode(line).None?
    ensures Decoded(a + [line] + b, decode) == Decoded(a + b, decode)
  {
    DecodedAppend(a + [line], b, decode);
    DecodedAppend(a, [line], decode);
    DecodedAppend(a, b, decode);
    assert Decoded([line], decode) == Decoded([], decode) + [];
  }

  /** When every line decodes, each line gives exactly one message, in the same position. */
  lemma {:induction false} AllLinesDecode(lines: seq<string>, decode: string -> Option<Message>)
    requires forall i :: 0 <= i < |lines| ==> decode(lines[i]).Some?
    ensures |Decoded(lines, decode)| == |lines|
    ensures forall i :: 0 <= i < |lines| ==> Decoded(lines, decode)[i] == decode(lines[i]).value
  {
    if lines != [] {
      AllLinesDecode(lines[..|lines| - 1], decode);
    }
  }

  /** Every message in the list came from some line of the stream. */
  lemma {:induction false} DecodedFromLines(lines: seq<string>, decode: string -> Option<Message>, k: nat)
    requires k < |Decoded(lines, decode)|
    ensures exists i :: 0 <= i < |lines| && decode(lines[i]) == Some(Decoded(lines, decode)[k])
  {
    var init := lines[..|lines| - 1];
    if k < |Decoded(init, decode)| {
      DecodedFromLines(init, decode, k);
      var i :| 0 <= i < |init| && decode(init[i]) == Some(Decoded(init, decode)[k]);
      assert lines[i] == init[i];
    } else {
      assert decode(lines[|lines| - 1]) == Some(Decoded(lines, decode)[k]);
    }
  }

  /**
    The system message announcing the number of users, "<n> active users": the text ends in
    " active users", and what precedes it reads back as the server's count.
   */
  function StatusMessage(status: ServerStatus): (m: Message)
    ensures m.user == None
    ensures |m.message| > 13 && m.message[|m.message| - 13..] == " active users"
    ensures Text.ParseInt(m.message[..|m.message| - 13]) == Some(status.activeUsers)
  {
    var count := Text.IntToString(status.activeUsers);
    var text := count + " active users";
    assert text[..|text| - 13] == count;
    assert text[|text| - 13..] == " active users";
    Text.ParseIntToString(status.activeUsers);
    Message(None, text)
  }

  /** The app model that talks to the chat server. */
  class BlabberModel {
    var username: string
    /** The messages shown in the chat. */
    var messages: seq<Message>

    constructor ()
      ensures username == "" && messages == []
    {
      username := "";
      messages := [];
    }

    /**
      `readMessages(stream:)`: the first line must decode as the server status, which adds
      one system message; every later line that decodes as a message is appended.
     */
    method ReadMessages(lines: seq<string>, end: StreamEnd,
                        decodeStatus: string -> Option<ServerStatus>, decodeMessage: string -> Option<Message>)
      returns (r: Result<(), ChatError>)
      modifies this
      ensures username == old(username)
      ensures lines == [] ==>
        messages == old(messages) && r == Err(if end.Failed? then StreamFailed(end.reason) else NoResponse)
      ensures lines != [] && decodeStatus(lines[0]).None? ==>
        messages == old(messages) && r == Err(InvalidResponse)
      ensures lines != [] && decodeStatus(lines[0]).Some? ==>
        && messages == old(messages) + [StatusMessage(decodeStatus(lines[0]).value)] + Decoded(lines[1..], decodeMessage)
        && r == if end.Failed? then Err(StreamFailed(end.reason)) else Ok(())
    {
      if lines == [] {
        return Err(if end.Failed? then StreamFailed(end.reason) else NoResponse);
      }
      var first := lines[0];
      var status := decodeStatus(first);
      if status.None? {
        return Err(InvalidResponse);
      }
      messages := messages + [StatusMessage(status.value)];
      AppendDecoded(lines[1..], decodeMessage);
      if end.Failed? {
        return Err(StreamFailed(end.reason));
      }
      return Ok(());
    }

    /** The loop over the lines after the status line: every line that decodes is appended. */
    method AppendDecoded(rest: seq<string>, decodeMessage: string -> Option<Message>)
      modifies this
      ensures messages == old(messages) + Decoded(rest, decodeMessage)
      ensures username == old(username)
    {
      var i := 0;
      while i < |rest|
        invariant 0 <= i <= |rest|
        invariant messages == old(messages) + Decoded(rest[..i], decodeMessage)
        invariant username == old(username)
      {
        var update := decodeMessage(rest[i]);
        assert rest[..i + 1][..i] == rest[..i];
        if update.Some? {
          messages := messages + [update.value];
        }
        i := i + 1;
      }
      assert rest[..i] == rest;
    }

    /**
      `chat()`: opens the live stream (`status` is None when the request threw) and, on a
      200 response, reads it.
     */
    method Chat(status: Option<int>, lines: seq<string>, end: StreamEnd,
                decodeStatus: string -> Option<ServerStatus>, decodeMessage: string -> Option<Message>)
      returns (r: Result<(), ChatError>)
      modifies this
      ensures username == old(username)
      ensures status.None? ==> r == Err(RequestFailed) && messages == old(messages)
      ensures status.Some? && status.value != 200 ==> r == Err(ServerError) && messages == old(messages)
      ensures status == Some(200) && lines == [] ==>
        messages == old(messages) && r == Err(if end.Failed? then StreamFailed(end.reason) else NoResponse)
      ensures status == Some(200) && lines != [] && decodeStatus(lines[0]).None? ==>
        messages == old(messages) && r == Err(InvalidResponse)
      ensures status == Some(200) && lines != [] && decodeStatus(lines[0]).Some? ==>
        && messages == old(messages) + [StatusMessage(decodeStatus(lines[0]).value)] + Decoded(lines[1..], decodeMessage)
        && r == if end.Failed? then Err(StreamFailed(end.reason)) else Ok(())
    {
      if status.None? {
        return Err(RequestFailed);
      }
      if status.value != 200 {
        return Err(ServerError);
      }
      r := ReadMessages(lines, end, decodeStatus, decodeMessage);
    }

    /** The cancellation handler of `chat()`: the message list is emptied. */
    method CancelChat()
      modifies this
      ensures messages == [] && username == old(username)
    {
      messages := [];
    }
  }
}
