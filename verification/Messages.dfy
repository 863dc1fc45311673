/** The part of a message that both transports share: its type, the ready flag, the display name and
    the text, with the parser of user lines working on them in place. */
module Messages {
  import opened Chat
  import opened UserLine

  /** Splits a line the way repeated formatted extraction does. */
  method SplitFragments(line: string) returns (fragments: seq<string>)
    ensures fragments == Fragments(line)
  {
    fragments := [];
    var i := 0;
    assert line[0..] == line;
    while i < |line|
      invariant i <= |line|
      invariant fragments + Fragments(line[i..]) == Fragments(line)
    {
      if IsSpace(line[i]) {
        FragmentsSkip(line, i);
        i := i + 1;
      } else {
        var j := i;
        while j < |line| && !IsSpace(line[j])
          invariant i <= j <= |line|
          invariant forall k | i <= k < j :: !IsSpace(line[k])
        {
          j := j + 1;
        }
        FragmentsAt(line, i, j);
        fragments := fragments + [line[i..j]];
        i := j;
      }
    }
    assert Fragments(line[|line|..]) == [];
  }

  class NetworkMessage {
    var typ: MsgType
    var readyToSend: bool
    var displayName: string
    var message: string

    constructor (inputMsg: string, msgType: MsgType)
      ensures typ == msgType && !readyToSend && displayName == "" && message == inputMsg
    {
      typ, readyToSend, displayName, message := msgType, false, "", inputMsg;
    }

    /** One turn of the parser's loop: the branch is chosen by the type, which earlier turns may have set. */
    method CheckFragment(fragment: string, count: nat, parts: seq<string>, part: nat, support: string)
      returns (flow: Flow, parts': seq<string>, part': nat, support': string)
      requires fragment != []
      modifies this
      ensures message == old(message)
      ensures Scan(typ, readyToSend, displayName, parts', part', support', flow)
           == ScanFragment(Scan(old(typ), old(readyToSend), old(displayName), parts, part, support, Going),
                           message, count, fragment)
    {
      flow, parts', part', support' := Going, parts, part, support;
      if typ == UserCmd {
        if fragment == "/auth" {
          if count != 4 {
            readyToSend := false;
            flow := Stopped(false);
            return;
          }
          typ := Auth;
        } else if fragment == "/join" {
          if count != 2 {
            readyToSend := false;
            flow := Stopped(false);
            return;
          }
          typ := Join;
        } else if fragment == "/rename" {
          if count != 2 {
            readyToSend := false;
            flow := Stopped(false);
            return;
          }
          typ := Rename;
        } else if fragment == "/help" {
          typ := Help;
          readyToSend := false;
          flow := Stopped(true);
        } else {
          if fragment[0] == '/' {
            readyToSend := false;
            flow := Stopped(false);
            return;
          }
          typ := Msg;
          if !ValidParam(message, TextPattern) {
            flow := Stopped(false);
          }
        }
      } else if typ == Auth {
        if part == 1 {
          if ValidParam(fragment, IdPattern) {
            parts' := parts + [fragment];
            part' := part + 1;
          } else {
            readyToSend := false;
            flow := Stopped(false);
          }
        } else if part == 2 {
          if ValidParam(fragment, SecretPattern) {
            support' := fragment;
            part' := part + 1;
          } else {
            readyToSend := false;
            flow := Stopped(false);
          }
        } else {
          if ValidParam(fragment, DnamePattern) {
            parts' := parts + [fragment, support];
            displayName := fragment;
          } else {
            readyToSend := false;
            flow := Stopped(false);
          }
        }
      } else if typ == Join {
        if ValidParam(fragment, IdPattern) {
          parts' := parts + [fragment];
        } else {
          readyToSend := false;
          flow := Stopped(false);
        }
      } else if typ == Rename {
        readyToSend := false;
        if ValidParam(fragment, IdPattern) {
          displayName := fragment;
        } else {
          flow := Stopped(false);
        }
      } else if typ == Err {
        if !ValidParam(message, TextPattern) {
          readyToSend := false;
        }
        flow := Stopped(false);
      } else if typ == Bye {
        flow := Stopped(true);
      }
    }

    /** Parses the text as a user line; parts receives the parameters in wire order. */
    method CheckUserMessage() returns (ok: bool, parts: seq<string>)
      modifies this
      ensures message == old(message)
      ensures Outcome(ok, typ, readyToSend, displayName, parts)
           == Check(old(typ), message, old(displayName))
    {
      ghost var start := Begin(typ, displayName);
      parts := [];
      readyToSend := true;
      if typ == CustomErr {
        return true, parts;
      }
      var fragments := SplitFragments(message);
      var part, support, flow := 1, "", Going;
      var i := 0;
      while i < |fragments| && flow.Going?
        invariant i <= |fragments| && message == old(message)
        invariant ScanTo(start, message, fragments, i)
               == Scan(typ, readyToSend, displayName, parts, part, support, flow)
      {
        flow, parts, part, support := CheckFragment(fragments[i], |fragments|, parts, part, support);
        i := i + 1;
      }
      if flow.Stopped? {
        ScanIdle(start, message, fragments, i, |fragments|);
      }
      return flow != Stopped(false), parts;
    }
  }
}
