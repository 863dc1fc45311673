/** Messages of the TCP variant: one fixed buffer, filled in place as a C string on the way out and as a
    received frame on the way in. */
module TcpMessages {
  import opened Chat
  import opened UserLine
  import opened Messages
  import opened TcpWire

  class TcpMessage {
    const base: NetworkMessage
    const buffer: array<char>

    constructor (inputMsg: string, msgType: MsgType)
      ensures fresh(base) && fresh(buffer) && buffer.Length == BUFFER_SIZE && Text() == ""
      ensures base.typ == msgType && base.message == inputMsg && base.displayName == "" && !base.readyToSend
    {
      base := new NetworkMessage(inputMsg, msgType);
      var b := new char[BUFFER_SIZE];
      b[0] := '\0';
      buffer := b;
      new;
      UpToNulIs("", buffer[..]);
    }

    /** The buffer as a C string. */
    ghost function Text(): string
      reads buffer
    {
      UpToNul(buffer[..])
    }

    /** The string has room for n more characters and its terminator. */
    ghost predicate HasRoom(n: nat)
      reads buffer
    {
      buffer.Length == BUFFER_SIZE && |Text()| + n + 1 <= BUFFER_SIZE
    }

    method StrLen() returns (n: nat)
      requires HasRoom(0)
      ensures n == |Text()|
    {
      n := 0;
      ghost var s := buffer[..];
      assert s[|Text()|] == '\0';
      while buffer[n] != '\0'
        invariant n <= |Text()|
        invariant NulFree(s[..n])
        decreases |Text()| - n
      {
        assert s[n] == buffer[n];
        n := n + 1;
      }
      assert s[n] == buffer[n];
      UpToNulIs(s[..n], s);
    }

    /** strncpy into the buffer: after a NUL in part, NULs are written. */
    method CopyTo(position: nat, part: string)
      requires position + |part| < buffer.Length
      modifies buffer
      ensures buffer[..position] == old(buffer[..position])
      ensures forall j | position <= j < position + |part| ::
        buffer[j] == if j - position < |UpToNul(part)| then part[j - position] else '\0'
    {
      ghost var u := UpToNul(part);
      var ended := false;
      for i := 0 to |part|
        invariant ended == (i > |u|)
        invariant buffer[..position] == old(buffer[..position])
        invariant forall j | position <= j < position + i ::
          buffer[j] == if j - position < |u| then part[j - position] else '\0'
      {
        if i < |u| {
          assert part[i] == u[i] && u[i] in u;
        }
        if part[i] == '\0' {
          ended := true;
        }
        buffer[position + i] := if ended then '\0' else part[i];
      }
    }

    /** Appends a string with strncpy: what follows a NUL in it is lost. */
    method AddToBuffer(part: string)
      requires HasRoom(|part|)
      modifies buffer
      ensures buffer.Length == BUFFER_SIZE && Text() == old(Text()) + UpToNul(part)
    {
      ghost var before, u := Text(), UpToNul(part);
      var position := StrLen();
      assert buffer[..position] == before;
      CopyTo(position, part);
      buffer[|part| + position] := '\0';
      ghost var t := before + u;
      assert buffer[..position] == before;
      assert forall j | position <= j < |t| :: t[j] == buffer[j];
      assert buffer[..|t|] == t;
      assert buffer[|t|] == '\0';
      UpToNulIs(t, buffer[..]);
    }

    /** As AddToBuffer for a string without NUL. */
    method AddText(part: string)
      requires HasRoom(|part|) && NulFree(part)
      modifies buffer
      ensures buffer.Length == BUFFER_SIZE && Text() == old(Text()) + part
    {
      UpToNulIs(part, part);
      AddToBuffer(part);
    }

    method AddLineEnding()
      requires HasRoom(2)
      modifies buffer
      ensures buffer.Length == BUFFER_SIZE && Text() == old(Text()) + CRLF
    {
      ghost var before := Text();
      var length := StrLen();
      assert buffer[..length] == before;
      buffer[length] := '\r';
      buffer[length + 1] := '\n';
      buffer[length + 2] := '\0';
      UpToNulIs(before + CRLF, buffer[..]);
    }

    method AddAuth(parts: seq<string>)
      requires |parts| == 3 && Text() == "" && buffer.Length == BUFFER_SIZE
      requires ValidParam(parts[0], IdPattern) && ValidParam(parts[1], DnamePattern)
      requires ValidParam(parts[2], SecretPattern)
      modifies buffer
      ensures buffer.Length == BUFFER_SIZE && Text() == AuthLine(parts[0], parts[1], parts[2])
    {
      ValidParamBytes(parts[0], IdPattern);
      ValidParamBytes(parts[1], DnamePattern);
      ValidParamBytes(parts[2], SecretPattern);
      var rest := parts;
      AddText("AUTH ");
      assert Text() == "AUTH ";
      AddText(rest[0]);
      rest := rest[1..];
      AddText(" AS ");
      AddText(rest[0]);
      rest := rest[1..];
      assert Text() == "AUTH " + parts[0] + " AS " + parts[1];
      AddText(" USING ");
      AddText(rest[|rest| - 1]);
      AddLineEnding();
    }

    method AddJoin(channel: string)
      requires ValidParam(channel, IdPattern) && ValidName(base.displayName)
      requires Text() == "" && buffer.Length == BUFFER_SIZE
      modifies buffer
      ensures buffer.Length == BUFFER_SIZE && Text() == JoinLine(channel, base.displayName)
    {
      ValidParamBytes(channel, IdPattern);
      ValidParamBytes(base.displayName, DnamePattern);
      AddText("JOIN ");
      assert Text() == "JOIN ";
      AddText(channel);
      assert Text() == "JOIN " + channel;
      AddText(" AS ");
      AddText(base.displayName);
      assert Text() == "JOIN " + channel + " AS " + base.displayName;
      AddLineEnding();
    }

    method AddTextLine(keyword: string)
      requires keyword == "ERR" || keyword == "MSG"
      requires ValidName(base.displayName) && ValidParam(base.message, TextPattern)
      requires Text() == "" && buffer.Length == BUFFER_SIZE
      modifies buffer
      ensures buffer.Length == BUFFER_SIZE && Text() == TextLine(keyword, base.displayName, base.message)
    {
      ValidParamBytes(base.displayName, DnamePattern);
      ValidParamBytes(base.message, TextPattern);
      TextLineBody(keyword, base.displayName, base.message);
      AddText(keyword + " FROM ");
      assert Text() == keyword + " FROM ";
      AddText(base.displayName);
      AddText(" IS ");
      AddText(base.message);
      AddLineEnding();
    }

    /** Writes the line from its parameters. */
    method AddLine(parts: seq<string>)
      requires base.typ == Auth ==> |parts| == 3 && ValidParam(parts[0], IdPattern)
      requires base.typ == Auth ==> ValidParam(parts[1], DnamePattern) && ValidParam(parts[2], SecretPattern)
      requires base.typ == Join ==> |parts| == 1 && ValidParam(parts[0], IdPattern)
      requires base.typ in {Msg, CustomErr} ==> ValidParam(base.message, TextPattern)
      requires base.typ != Err
      requires ValidName(base.displayName) && Text() == "" && buffer.Length == BUFFER_SIZE
      modifies buffer
      ensures Text() == TcpEncode(Outcome(true, base.typ, base.readyToSend, base.displayName, parts), base.message)
    {
      hide ValidParam, AuthLine, JoinLine, TextLine, UpToNul;
      if base.typ == Auth {
        AddAuth(parts);
      } else if base.typ == Join {
        AddJoin(parts[|parts| - 1]);
      } else if base.typ == CustomErr {
        AddTextLine("ERR");
      } else if base.typ == Msg {
        AddTextLine("MSG");
      } else if base.typ == Bye {
        AddText("BYE");
        AddLineEnding();
      }
    }

    /** Parses the text where it came from the user, and writes the line into the buffer. */
    method ProcessOutgoing()
      requires base.typ in {UserCmd, CustomErr, Bye} && (base.typ == Bye ==> base.message == "BYE")
      requires base.typ == CustomErr ==> ValidParam(base.message, TextPattern)
      requires ValidName(base.displayName) && Text() == "" && buffer.Length == BUFFER_SIZE
      modifies base, buffer
      ensures base.message == old(base.message)
      ensures var o := Check(old(base.typ), base.message, old(base.displayName));
        && base.typ == o.typ && base.displayName == o.name && base.readyToSend == o.ready
        && Text() == TcpEncode(o, base.message)
    {
      hide Grammar, ValidParam, UpToNul, Fragments;
      ghost var o := Check(base.typ, base.message, base.displayName);
      if base.typ == UserCmd {
        CheckIsGrammar(base.message, base.displayName);
        GrammarName(base.message, base.displayName);
        GrammarParts(base.message, base.displayName);
      } else {
        CheckOwn(base.typ, base.message, base.displayName);
      }
      hide Check;
      var valid, parts := base.CheckUserMessage();
      if valid {
        AddLine(parts);
      }
    }

    /** The effect of the receive loop on the buffer. */
    ghost predicate Holds(f: string)
      reads buffer
    {
      buffer.Length == BUFFER_SIZE && |f| <= BUFFER_SIZE && buffer[..|f|] == f
    }

    method ToUpper(word: string) returns (t: string)
      ensures t == Upper(word)
    {
      t := "";
      for i := 0 to |word|
        invariant |t| == i && forall k | 0 <= k < i :: t[k] == UpperChar(word[k])
      {
        t := t + [UpperChar(word[i])];
      }
    }

    method RemoveLineEnding(line: string) returns (t: string)
      ensures t == StripEnd(line)
    {
      t := line;
      if t != [] && t[|t| - 1] == '\n' {
        t := t[..|t| - 1];
      }
      if t != [] && t[|t| - 1] == '\r' {
        t := t[..|t| - 1];
      }
    }

    /** Text after the first "is"; raised when it would start past the end of the line. */
    method ExtractText(line: string) returns (found: bool, raised: bool, text: string)
      ensures found == FindIs(line, 0).Some?
      ensures found ==> raised == (FindIs(line, 0).value + 3 > |line|)
      ensures found && !raised ==> text == Extract(line, FindIs(line, 0).value)
      ensures !found ==> !raised
    {
      found, raised, text := false, false, "";
      match FindIs(line, 0) {
      case None =>
      case Some(position) =>
        found := true;
        if position + 3 > |line| {
          raised := true;
        } else {
          text := RemoveLineEnding(line[position + 3..]);
        }
      }
    }

    /** Decodes the received frame; shown is what it prints. */
    method ProcessInbound(bytesRx: nat, ghost f: string) returns (shown: seq<Shown>, raised: bool)
      requires Holds(f) && bytesRx == |f| && base.typ == ToBeDecided && base.message == ""
      modifies base
      ensures raised == TcpDecode(f).OutOfRange?
      ensures !raised ==> TcpDecode(f) == Decoded(base.typ, base.message, shown)
    {
      hide Fragments, FindIs, Extract, Upper;
      shown, raised := [], false;
      var line := buffer[..bytesRx];
      assert line == f;
      var words := SplitFragments(line);
      if |words| == 0 {
        base.typ := InvalidMsg;
        return;
      }
      var keyword := ToUpper(words[0]);
      if |words| == 1 && keyword == "BYE" {
        base.typ := Bye;
        return;
      }
      if |words| >= 4 {
        if keyword == "REPLY" {
          var result := ToUpper(words[1]);
          if result == "OK" || result == "NOK" {
            base.typ := if result == "OK" then ReplyOk else ReplyNok;
            var found, outside, text := ExtractText(line);
            if !found {
              base.typ := InvalidMsg;
              return;
            }
            raised := outside;
            base.message := (if result == "OK" then "Success: " else "Failure: ") + text;
            return;
          }
        } else if keyword == "ERR" || keyword == "MSG" {
          base.typ := if keyword == "ERR" then Err else Msg;
          var found, outside, text := ExtractText(line);
          if !found {
            base.typ := InvalidMsg;
            return;
          }
          raised := outside;
          shown := [Shown(base.typ, 0, words[2], text)];
          return;
        }
      }
      base.typ := InvalidMsg;
    }
  }
}
