/** Messages of the UDP variant: a growing output buffer, a fixed input buffer, and the two ids. */
module UdpMessages {
  import opened Chat
  import opened UserLine
  import opened Messages
  import opened UdpWire

  /** What process_outgoing_msg makes of the message before it is encoded. */
  function Outgoing(typ: MsgType, message: string, name: string): Outcome {
    if typ == CustomErr then Outcome(true, Err, false, name, []) else Check(typ, message, name)
  }

  class UdpMessage {
    const base: NetworkMessage
    const buffer: array<char>
    var udpBuffer: string
    var messageId: Id
    var refMessageId: Id

    constructor (inputMsg: string, msgType: MsgType, id: Id)
      ensures fresh(base) && fresh(buffer) && buffer.Length == BUFFER_SIZE
      ensures base.typ == msgType && base.message == inputMsg && base.displayName == "" && !base.readyToSend
      ensures udpBuffer == "" && messageId == id && refMessageId == 0
    {
      base := new NetworkMessage(inputMsg, msgType);
      buffer := new char[BUFFER_SIZE];
      udpBuffer, messageId, refMessageId := "", id, 0;
    }

    /** The received message as a value. */
    ghost function Value(): Inbound
      reads this, base
    {
      Inbound(base.typ, messageId, refMessageId, base.message)
    }

    ghost predicate Holds(p: Packet)
      reads buffer
    {
      buffer.Length == BUFFER_SIZE && buffer[..|p|] == p
    }

    /** The effect of recvfrom on the input buffer. */
    method Receive(p: Packet)
      requires buffer.Length == BUFFER_SIZE
      modifies buffer
      ensures Holds(p)
    {
      for i := 0 to |p|
        invariant buffer[..i] == p[..i]
      {
        buffer[i] := p[i];
      }
      assert p[..|p|] == p;
    }

    method PushText(text: string)
      modifies this`udpBuffer
      ensures udpBuffer == old(udpBuffer) + text
    {
      for i := 0 to |text|
        invariant udpBuffer == old(udpBuffer) + text[..i]
      {
        udpBuffer := udpBuffer + [text[i]];
      }
      assert text[..|text|] == text;
    }

    method PushField(text: string)
      modifies this`udpBuffer
      ensures udpBuffer == old(udpBuffer) + text + "\0"
    {
      PushText(text);
      udpBuffer := udpBuffer + "\0";
    }

    method PushHeader(k: char)
      requires udpBuffer == ""
      modifies this`udpBuffer
      ensures udpBuffer == [k] + IdBytes(messageId)
    {
      udpBuffer := udpBuffer + [k];
      udpBuffer := udpBuffer + [(messageId / 256) as char];
      udpBuffer := udpBuffer + [(messageId % 256) as char];
    }

    method PushTwoFields(k: char, a: string, b: string)
      requires udpBuffer == ""
      modifies this`udpBuffer
      ensures udpBuffer == [k] + IdBytes(messageId) + Fields([a, b])
    {
      PushHeader(k);
      PushField(a);
      PushField(b);
      FieldsOfTwo(a, b, [k] + IdBytes(messageId));
    }

    method PushAuth(parts: seq<string>)
      requires udpBuffer == "" && |parts| == 3
      modifies this`udpBuffer
      ensures udpBuffer == [UDP_AUTH] + IdBytes(messageId) + Fields(parts[..3])
    {
      PushHeader(UDP_AUTH);
      var rest := parts;
      PushField(rest[0]);
      rest := rest[1..];
      PushField(rest[0]);
      rest := rest[1..];
      PushField(rest[0]);
      FieldsOfThree(parts, [UDP_AUTH] + IdBytes(messageId));
    }

    /** Encodes the message from its parameters. */
    method PushMessage(parts: seq<string>)
      requires udpBuffer == ""
      requires (base.typ == Auth ==> |parts| == 3) && (base.typ == Join ==> |parts| == 1)
      modifies this`udpBuffer
      ensures udpBuffer == UdpEncode(Outcome(true, base.typ, base.readyToSend, base.displayName, parts),
                                     messageId, base.message)
    {
      if base.typ == Auth {
        PushAuth(parts);
      } else if base.typ == Join {
        PushTwoFields(UDP_JOIN, parts[|parts| - 1], base.displayName);
      } else if base.typ == Msg || base.typ == Err {
        PushTwoFields(if base.typ == Err then UDP_ERR else UDP_MSG, base.displayName, base.message);
      } else if base.typ == Bye {
        PushHeader(UDP_BYE);
        PushText(base.displayName);
      } else if base.typ == Confirm {
        PushHeader(UDP_CONFIRM);
      }
    }

    /** Parses the text where it came from the user, and encodes the message. */
    method ProcessOutgoing()
      requires base.typ in {UserCmd, CustomErr, Bye, Confirm} && udpBuffer == ""
      requires (base.typ == Bye ==> base.message == "BYE") && (base.typ == Confirm ==> base.message == "")
      modifies base, this`udpBuffer
      ensures base.message == old(base.message)
      ensures var o := Outgoing(old(base.typ), base.message, old(base.displayName));
        && base.typ == o.typ && base.displayName == o.name
        && base.readyToSend == (if old(base.typ) == CustomErr then old(base.readyToSend) else o.ready)
        && udpBuffer == UdpEncode(o, messageId, base.message)
    {
      if base.typ == UserCmd {
        CheckIsGrammar(base.message, base.displayName);
        GrammarReady(base.message, base.displayName);
      } else {
        CheckOwn(base.typ, base.message, base.displayName);
      }
      var parts: seq<string> := [];
      if base.typ != CustomErr {
        var valid;
        valid, parts := base.CheckUserMessage();
        if !valid {
          return;
        }
      } else {
        base.typ := Err;
      }
      PushMessage(parts);
    }

    /** Finds the type and the id of the received datagram; true means its id was handled before. */
    method ValidateUniqueId(bytesRx: nat, ids: seq<Id>, ghost p: Packet) returns (repeated: bool)
      requires Holds(p) && bytesRx == |p| && messageId == NO_ID && refMessageId == 0 && base.message == ""
      modifies base, this`messageId, this`refMessageId
      ensures Value() == Header(p) && repeated == IsRepeat(p, ids)
    {
      if bytesRx < 3 {
        base.typ := InvalidMsg;
        return false;
      }
      assert forall i | 0 <= i < |p| :: buffer[i] == p[i];
      var kind := buffer[0];
      if kind == UDP_CONFIRM {
        base.typ := Confirm;
        refMessageId := ReadId(1, p);
        return false;
      } else if kind == UDP_REPLY {
        base.typ := ReplyOk;
      } else if kind == UDP_MSG {
        base.typ := Msg;
      } else if kind == UDP_ERR {
        base.typ := Err;
      } else if kind == UDP_BYE {
        base.typ := Bye;
      } else {
        base.typ := InvalidMsg;
        refMessageId := ReadId(1, p);
        return false;
      }
      messageId := ReadId(1, p);
      for i := 0 to |ids|
        invariant messageId !in ids[..i]
      {
        if messageId == ids[i] {
          return true;
        }
      }
      return false;
    }

    /** Two bytes of the input buffer in network byte order. */
    method ReadId(i: nat, ghost p: Packet) returns (id: Id)
      requires Holds(p) && i + 1 < |p|
      ensures id == IdAt(p, i)
    {
      assert buffer[i] == p[i] && buffer[i + 1] == p[i + 1];
      assert IsByte(p[i]) && IsByte(p[i + 1]);
      id := buffer[i] as int * 256 + buffer[i + 1] as int;
    }

    /** The C string in the input buffer from start, cut at the number of received bytes. */
    method ReadText(start: nat, bytesRx: nat) returns (text: string)
      requires start <= bytesRx <= buffer.Length
      ensures text == UpToNul(buffer[start..bytesRx])
    {
      text := "";
      var i := start;
      while i < bytesRx && buffer[i] != '\0'
        invariant start <= i <= bytesRx
        invariant text == buffer[start..i] && NulFree(text)
      {
        text := text + [buffer[i]];
        i := i + 1;
      }
      UpToNulIs(text, buffer[start..bytesRx]);
    }

    /** Reads the rest of the received datagram; the result is what it prints. */
    method ProcessInbound(bytesRx: nat, ghost p: Packet) returns (shown: seq<Shown>)
      requires Holds(p) && bytesRx == |p|
      modifies base, this`refMessageId
      ensures Value() == Body(old(Value()), p) && shown == BodyShows(old(Value()), p)
      ensures base.displayName == old(base.displayName) && base.readyToSend == old(base.readyToSend)
    {
      shown := [];
      assert forall i | 0 <= i < |p| :: buffer[i] == p[i];
      if base.typ == InvalidMsg || base.typ == Confirm {
        return;
      }
      if base.typ == ReplyOk {
        if bytesRx < 8 {
          base.typ := InvalidMsg;
          return;
        }
        if buffer[3] == '\0' {
          base.typ := ReplyNok;
          base.message := base.message + "Failure: ";
        } else {
          base.message := base.message + "Success: ";
        }
        refMessageId := ReadId(4, p);
        var text := ReadText(6, bytesRx);
        assert buffer[6..bytesRx] == p[6..];
        base.message := base.message + text;
      } else if base.typ == Msg || base.typ == Err {
        if bytesRx < 7 {
          base.typ := Err;
          return;
        }
        var name := ReadText(3, bytesRx);
        assert buffer[3..bytesRx] == p[3..];
        var text := "";
        var start := 3 + |name| + 1;
        if start < bytesRx {
          text := ReadText(start, bytesRx);
          assert buffer[start..bytesRx] == p[start..];
        }
        shown := [Shown(base.typ, messageId, name, text)];
      } else if base.typ != Bye {
        base.typ := InvalidMsg;
      }
    }
  }

  lemma FieldsOfTwo(a: string, b: string, head: string)
    ensures head + a + "\0" + b + "\0" == head + Fields([a, b])
  {
    FieldsAppend([a], b);
    assert [a] + [b] == [a, b];
    assert Fields([a]) == a + "\0" + "";
  }

  lemma FieldsOfThree(fs: seq<string>, head: string)
    requires |fs| == 3
    ensures head + fs[0] + "\0" + fs[1] + "\0" + fs[2] + "\0" == head + Fields(fs[..3])
  {
    FieldsOfTwo(fs[0], fs[1], head);
    FieldsAppend([fs[0], fs[1]], fs[2]);
    assert [fs[0], fs[1]] + [fs[2]] == fs[..3];
    var t := Fields([fs[0], fs[1]]);
    assert head + t + fs[2] + "\0" == head + (t + fs[2] + "\0");
  }
}
