/** The binary encoding of the UDP variant, as the client writes it and as the client reads it. */
module UdpWire {
  import opened Chat
  import opened UserLine

  const UDP_CONFIRM := '\U{00}'
  const UDP_REPLY := '\U{01}'
  const UDP_AUTH := '\U{02}'
  const UDP_JOIN := '\U{03}'
  const UDP_MSG := '\U{04}'
  const UDP_ERR := '\U{FE}'
  const UDP_BYE := '\U{FF}'

  type Id = i: int | 0 <= i < 0x1_0000

  /** What recvfrom delivers: at least one byte, at most the buffer. */
  type Packet = p: string | 0 < |p| <= BUFFER_SIZE && IsBytes(p) witness "x"

  /** A counter value as the 16-bit field of a message holds it. */
  function ToId(n: nat): Id {
    n % 0x1_0000
  }

  function IdBytes(id: Id): (b: string)
    ensures |b| == 2 && IsBytes(b)
  {
    [(id / 256) as char, (id % 256) as char]
  }

  /** The 16-bit number at offset i, in network byte order. */
  function IdAt(p: Packet, i: nat): Id
    requires i + 1 < |p|
  {
    assert IsByte(p[i]) && IsByte(p[i + 1]);
    p[i] as int * 256 + p[i + 1] as int
  }

  /** NUL-terminated fields, one after the other. */
  function Fields(fs: seq<string>): string {
    if fs == [] then "" else fs[0] + "\0" + Fields(fs[1..])
  }

  /** What process_outgoing_msg leaves in the output buffer. */
  function UdpEncode(o: Outcome, id: Id, message: string): string {
    if !o.ok then ""
    else match o.typ
      case Auth => if |o.parts| < 3 then "" else [UDP_AUTH] + IdBytes(id) + Fields(o.parts[..3])
      case Join => if |o.parts| < 1 then "" else [UDP_JOIN] + IdBytes(id) + Fields([o.parts[|o.parts| - 1], o.name])
      case Msg => [UDP_MSG] + IdBytes(id) + Fields([o.name, message])
      case Err => [UDP_ERR] + IdBytes(id) + Fields([o.name, message])
      case Bye => [UDP_BYE] + IdBytes(id) + o.name
      case Confirm => [UDP_CONFIRM] + IdBytes(id)
      case _ => ""
  }

  function ConfirmBytes(id: Id): string {
    [UDP_CONFIRM] + IdBytes(id)
  }

  function ByeBytes(id: Id): string {
    [UDP_BYE] + IdBytes(id)
  }

  function ErrBytes(id: Id, name: string): string {
    [UDP_ERR] + IdBytes(id) + Fields([name, ERR_TEXT])
  }

  lemma {:induction false} FieldsAppend(fs: seq<string>, f: string)
    ensures Fields(fs + [f]) == Fields(fs) + f + "\0"
  {
    if fs == [] {
      assert Fields([f]) == f + "\0" + Fields([]);
      assert f + "\0" + "" == f + "\0" == "" + f + "\0";
    } else {
      FieldsAppend(fs[1..], f);
      assert (fs + [f])[1..] == fs[1..] + [f];
      var t := Fields(fs[1..]);
      assert fs[0] + "\0" + (t + f + "\0") == fs[0] + "\0" + t + f + "\0";
    }
  }

  /** A received message: id and ref keep their initial values where the packet does not set them. */
  datatype Inbound = Inbound(typ: MsgType, id: Id, ref: Id, text: string)

  const NO_ID: Id := 0xFFFF

  /** The type and the id that validate_unique_id reads. */
  function Header(p: Packet): Inbound {
    if |p| < 3 then Inbound(InvalidMsg, NO_ID, 0, "")
    else if p[0] == UDP_CONFIRM then Inbound(Confirm, NO_ID, IdAt(p, 1), "")
    else if p[0] == UDP_REPLY then Inbound(ReplyOk, IdAt(p, 1), 0, "")
    else if p[0] == UDP_MSG then Inbound(Msg, IdAt(p, 1), 0, "")
    else if p[0] == UDP_ERR then Inbound(Err, IdAt(p, 1), 0, "")
    else if p[0] == UDP_BYE then Inbound(Bye, IdAt(p, 1), 0, "")
    else Inbound(InvalidMsg, NO_ID, IdAt(p, 1), "")
  }

  /** The packet repeats an id that has been handled before. */
  predicate IsRepeat(p: Packet, seen: seq<Id>) {
    Header(p).typ in {ReplyOk, Msg, Err, Bye} && Header(p).id in seen
  }

  predicate IsConfirm(p: Packet, id: int) {
    Header(p).typ == Confirm && Header(p).ref == id
  }

  /** Display name and text of a MSG or ERR packet. */
  function NameOf(p: Packet): string
    requires |p| >= 3
  {
    UpToNul(p[3..])
  }

  function TextOf(p: Packet): string
    requires |p| >= 3
  {
    var start := 3 + |NameOf(p)| + 1;
    if start <= |p| then UpToNul(p[start..]) else ""
  }

  /** The message after process_inbound_msg. */
  function Body(m: Inbound, p: Packet): Inbound {
    match m.typ
    case InvalidMsg => m
    case Confirm => m
    case ReplyOk =>
      if |p| < 8 then m.(typ := InvalidMsg)
      else
        var ok := p[3] != '\0';
        m.(typ := if ok then ReplyOk else ReplyNok, ref := IdAt(p, 4),
           text := m.text + (if ok then "Success: " else "Failure: ") + UpToNul(p[6..]))
    case Msg => if |p| < 7 then m.(typ := Err) else m
    case Err => m
    case Bye => m
    case _ => m.(typ := InvalidMsg)
  }

  /** The line that process_inbound_msg prints, if any. */
  function BodyShows(m: Inbound, p: Packet): seq<Shown> {
    if (m.typ == Msg || m.typ == Err) && |p| >= 7 then [Shown(m.typ, m.id, NameOf(p), TextOf(p))] else []
  }

  /** A REPLY packet that the client accepts as a positive answer to request ref. */
  predicate IsReplyOk(p: Packet, ref: int) {
    Body(Header(p), p).typ == ReplyOk && Body(Header(p), p).ref == ref
  }

  lemma IdRoundTrip(id: Id, p: Packet, i: nat)
    requires i + 1 < |p| && p[i] == IdBytes(id)[0] && p[i + 1] == IdBytes(id)[1]
    ensures IdAt(p, i) == id
  {
  }

  /** CONFIRM and BYE carry every 16-bit id across the wire. */
  lemma ConfirmByeRoundTrip(id: Id)
    ensures IsBytes(ConfirmBytes(id)) && IsBytes(ByeBytes(id))
    ensures Header(ConfirmBytes(id)) == Inbound(Confirm, NO_ID, id, "")
    ensures Header(ByeBytes(id)) == Inbound(Bye, id, 0, "")
  {
    IdRoundTrip(id, ConfirmBytes(id), 1);
    IdRoundTrip(id, ByeBytes(id), 1);
  }

  /** Layout of a MSG or ERR datagram. */
  lemma TextLayout(k: char, id: Id, name: string, content: string)
    requires IsByte(k) && IsBytes(name) && IsBytes(content)
    requires |name| + |content| + 5 <= BUFFER_SIZE
    ensures var p := [k] + IdBytes(id) + Fields([name, content]);
      && IsBytes(p) && |p| == |name| + |content| + 5 && p[0] == k && IdAt(p, 1) == id
      && p[3..] == name + "\0" + content + "\0"
      && p[3 + |name| + 1..] == content + "\0"
  {
    var fields := name + "\0" + content + "\0";
    FieldsAppend([name], content);
    assert [name] + [content] == [name, content];
    assert Fields([name]) == name + "\0" + "";
    assert Fields([name, content]) == fields;
    var p := [k] + IdBytes(id) + fields;
    assert p[3..] == fields;
    IdRoundTrip(id, p, 1);
  }

  /** How the client reads name and text of a datagram with that layout. */
  lemma ReadText(p: Packet, name: string, content: string)
    requires NulFree(name) && NulFree(content)
    requires |p| == |name| + |content| + 5
    requires p[3..] == name + "\0" + content + "\0" && p[3 + |name| + 1..] == content + "\0"
    ensures NameOf(p) == name && TextOf(p) == content
  {
    var s, t := p[3..], p[3 + |name| + 1..];
    assert name <= s && s[|name|] == '\0';
    UpToNulIs(name, s);
    assert content <= t && t[|content|] == '\0';
    UpToNulIs(content, t);
  }

  /** What the client makes of a datagram with that layout. */
  lemma DecodeText(p: Packet, typ: MsgType, id: Id, name: string, content: string)
    requires typ == Msg || typ == Err
    requires |p| == |name| + |content| + 5 && p[0] == (if typ == Msg then UDP_MSG else UDP_ERR)
    requires IdAt(p, 1) == id && NameOf(p) == name && TextOf(p) == content
    ensures Header(p) == Inbound(typ, id, 0, "")
    ensures |name| + |content| >= 2
       <==> Body(Header(p), p) == Header(p) && BodyShows(Header(p), p) == [Shown(typ, id, name, content)]
    ensures |name| + |content| < 2 ==> Body(Header(p), p).typ == Err && BodyShows(Header(p), p) == []
  {
    hide IdAt, NameOf, TextOf;
  }

  /** An encoded MSG or ERR is read back with its type, id, name and content exactly when name and
      content together have at least two characters; a shorter one is taken for an ERR and not shown. */
  lemma TextRoundTrip(typ: MsgType, id: Id, name: string, content: string)
    requires typ == Msg || typ == Err
    requires NulFree(name) && NulFree(content) && IsBytes(name) && IsBytes(content)
    requires |name| + |content| + 5 <= BUFFER_SIZE
    ensures var p := UdpEncode(Outcome(true, typ, true, name, []), id, content);
      && IsBytes(p) && |p| == |name| + |content| + 5
      && Header(p) == Inbound(typ, id, 0, "")
      && (|name| + |content| >= 2
          <==> Body(Header(p), p) == Header(p) && BodyShows(Header(p), p) == [Shown(typ, id, name, content)])
      && (|name| + |content| < 2 ==> Body(Header(p), p).typ == Err && BodyShows(Header(p), p) == [])
  {
    var k := if typ == Msg then UDP_MSG else UDP_ERR;
    var p := UdpEncode(Outcome(true, typ, true, name, []), id, content);
    assert p == [k] + IdBytes(id) + Fields([name, content]);
    hide UdpEncode, IdBytes, Fields, IdAt, NameOf, TextOf, Header, Body, BodyShows;
    TextLayout(k, id, name, content);
    ReadText(p, name, content);
    DecodeText(p, typ, id, name, content);
  }

  /** A REPLY as the protocol lays it out. */
  function ReplyPacket(id: Id, ok: bool, ref: Id, content: string): string {
    [UDP_REPLY] + IdBytes(id) + [if ok then '\U{01}' else '\0'] + IdBytes(ref) + content + "\0"
  }

  lemma ReplyLayout(id: Id, ok: bool, ref: Id, content: string)
    requires IsBytes(content) && |content| + 7 <= BUFFER_SIZE
    ensures var p := ReplyPacket(id, ok, ref, content);
      && |p| == |content| + 7 && IsBytes(p) && p[0] == UDP_REPLY && IdAt(p, 1) == id
      && (p[3] != '\0' <==> ok) && IdAt(p, 4) == ref && p[6..] == content + "\0"
  {
    var head := [UDP_REPLY] + IdBytes(id) + [if ok then '\U{01}' else '\0'] + IdBytes(ref);
    assert |head| == 6 && IsBytes(head);
    var p := head + content + "\0";
    assert p[..6] == head && p[6..] == content + "\0";
    assert forall i | 0 <= i < 6 :: p[i] == head[i];
    assert IsBytes(p);
    IdRoundTrip(id, p, 1);
    IdRoundTrip(ref, p, 4);
  }

  /** A REPLY is read back with its id, result, request and content exactly when its content is not empty;
      an empty one, which the protocol allows, is taken for an invalid message. */
  lemma ReplyRoundTrip(id: Id, ok: bool, ref: Id, content: string)
    requires NulFree(content) && IsBytes(content) && |content| + 7 <= BUFFER_SIZE
    ensures var p := ReplyPacket(id, ok, ref, content);
      && |p| == |content| + 7 && IsBytes(p)
      && Header(p) == Inbound(ReplyOk, id, 0, "") && BodyShows(Header(p), p) == []
      && var d := Inbound(if ok then ReplyOk else ReplyNok, id, ref,
                          (if ok then "Success: " else "Failure: ") + content);
      && (Body(Header(p), p) == d <==> content != "")
      && (content == "" ==> Body(Header(p), p).typ == InvalidMsg)
  {
    hide ReplyPacket, IdAt;
    ReplyLayout(id, ok, ref, content);
    UpToNulIs(content, content + "\0");
    assert "" + "Success: " == "Success: " && "" + "Failure: " == "Failure: ";
  }

  /** Splits the payload of a datagram at its NUL bytes, dropping what follows the last one. */
  function SplitNul(s: string): seq<string>
    decreases |s|
  {
    var t := UpToNul(s);
    if |t| == |s| then [] else [t] + SplitNul(s[|t| + 1..])
  }

  /** Splitting at NUL undoes the layout of any list of NUL-free fields. */
  lemma {:induction false} SplitFields(fs: seq<string>)
    requires forall i | 0 <= i < |fs| :: NulFree(fs[i])
    ensures SplitNul(Fields(fs)) == fs
  {
    if fs != [] {
      var s := Fields(fs);
      UpToNulIs(fs[0], s);
      assert s[|fs[0]| + 1..] == Fields(fs[1..]);
      SplitFields(fs[1..]);
    }
  }

  /** Two different requests never share an encoding: the fields stand in the datagram in the order
      user name, display name, secret, although the user types the secret before the display name. */
  lemma AuthDecodable(line: string, name: string, id: Id)
    requires GoodAuth(Fragments(line))
    ensures var p := UdpEncode(Grammar(line, name), id, line);
      var ts := Fragments(line);
      |p| > 3 && p[..3] == [UDP_AUTH] + IdBytes(id) && SplitNul(p[3..]) == [ts[1], ts[3], ts[2]]
  {
    var ts := Fragments(line);
    ValidParamBytes(ts[1], IdPattern);
    ValidParamBytes(ts[2], SecretPattern);
    ValidParamBytes(ts[3], DnamePattern);
    var fs := [ts[1], ts[3], ts[2]];
    SplitFields(fs);
    var p := UdpEncode(Grammar(line, name), id, line);
    assert fs[..3] == fs;
    assert p[3..] == Fields(fs);
  }

  /** The fields of a JOIN: the channel, then the current display name. */
  lemma JoinDecodable(line: string, name: string, id: Id)
    requires GoodJoin(Fragments(line)) && ValidName(name)
    ensures var p := UdpEncode(Grammar(line, name), id, line);
      |p| > 3 && p[..3] == [UDP_JOIN] + IdBytes(id) && SplitNul(p[3..]) == [Fragments(line)[1], name]
  {
    var ts := Fragments(line);
    ValidParamBytes(ts[1], IdPattern);
    ValidParamBytes(name, DnamePattern);
    var fs := [ts[1], name];
    SplitFields(fs);
    var p := UdpEncode(Grammar(line, name), id, line);
    assert p[3..] == Fields(fs);
  }
}
