/** The text encoding of the TCP variant: framing of the byte stream, and the lines the client writes
    and reads. */
module TcpWire {
  import opened Chat
  import opened UserLine

  const CRLF := "\r\n"
  const OPEN_ERR_TEXT := "Unknown or invalid message at current state"

  // ---------- framing ----------

  predicate EndsCrlf(s: string) {
    |s| >= 2 && s[|s| - 2] == '\r' && s[|s| - 1] == '\n'
  }

  /** accept_msg after n bytes without a terminator: the length of the frame it returns, or None if the
      connection closes first. */
  function FrameFrom(stream: string, n: nat): (r: Option<nat>)
    requires n <= |stream|
    ensures r.Some? ==> n <= r.value <= |stream| && (n < BUFFER_SIZE ==> n < r.value)
    decreases |stream| - n
  {
    if n >= BUFFER_SIZE then Some(n)
    else if n == |stream| then None
    else if EndsCrlf(stream[..n + 1]) then Some(n + 1)
    else FrameFrom(stream, n + 1)
  }

  /** One turn of the receive loop. */
  lemma FrameFromStep(stream: string, n: nat)
    requires n <= |stream|
    ensures FrameFrom(stream, n) ==
      if n >= BUFFER_SIZE then Some(n)
      else if n == |stream| then None
      else if EndsCrlf(stream[..n + 1]) then Some(n + 1)
      else FrameFrom(stream, n + 1)
  {
  }

  function NextFrame(stream: string): (r: Option<nat>)
    ensures r.Some? ==> 0 < r.value <= |stream|
  {
    FrameFrom(stream, 0)
  }

  /** What one call takes from the stream: the shortest prefix that ends in CRLF, cut at the buffer. */
  predicate IsNext(stream: string, n: nat) {
    && 0 < n <= |stream| && n <= BUFFER_SIZE
    && (EndsCrlf(stream[..n]) || n == BUFFER_SIZE)
    && forall m | 0 <= m < n :: !EndsCrlf(stream[..m])
  }

  lemma {:induction false} FrameFromIs(stream: string, n: nat)
    requires n <= |stream| && n <= BUFFER_SIZE
    requires forall m | 0 <= m <= n :: !EndsCrlf(stream[..m])
    ensures FrameFrom(stream, n) == None ==> forall k :: !IsNext(stream, k)
    ensures FrameFrom(stream, n).Some? ==> IsNext(stream, FrameFrom(stream, n).value)
    decreases |stream| - n
  {
    if n < BUFFER_SIZE && n < |stream| && !EndsCrlf(stream[..n + 1]) {
      FrameFromIs(stream, n + 1);
    }
  }

  /** One call returns the shortest prefix of the stream that ends in CRLF, or a full buffer. */
  lemma NextFrameIs(stream: string, n: nat)
    ensures NextFrame(stream) == Some(n) <==> IsNext(stream, n)
  {
    FrameFromIs(stream, 0);
    if IsNext(stream, n) && NextFrame(stream).Some? {
      var k := NextFrame(stream).value;
      assert !(k < n) && !(n < k);
    }
  }

  predicate IsFrame(f: string) {
    && |f| <= BUFFER_SIZE && EndsCrlf(f)
    && forall m | 0 <= m < |f| :: !EndsCrlf(f[..m])
  }

  function Concat(fs: seq<string>): string {
    if fs == [] then "" else fs[0] + Concat(fs[1..])
  }

  /** The frames that repeated calls return. */
  function Frames(stream: string): seq<string>
    decreases |stream|
  {
    match NextFrame(stream)
    case None => []
    case Some(n) =>
      [stream[..n]] + Frames(stream[n..])
  }

  /** A well-formed frame at the front of the stream is what the next call returns. */
  lemma FirstFrame(f: string, rest: string)
    requires IsFrame(f)
    ensures NextFrame(f + rest) == Some(|f|) && (f + rest)[..|f|] == f && (f + rest)[|f|..] == rest
  {
    var s := f + rest;
    assert s[..|f|] == f && s[|f|..] == rest;
    assert forall m | 0 <= m < |f| :: s[..m] == f[..m];
    assert IsNext(s, |f|);
    NextFrameIs(s, |f|);
  }

  /** Repeated calls split any stream of well-formed frames back into exactly those frames. */
  lemma {:induction false} FramesRoundTrip(fs: seq<string>)
    requires forall i | 0 <= i < |fs| :: IsFrame(fs[i])
    ensures Frames(Concat(fs)) == fs
  {
    if fs != [] {
      FirstFrame(fs[0], Concat(fs[1..]));
      FramesRoundTrip(fs[1..]);
    }
  }

  // ---------- lines the client writes ----------

  function AuthLine(user: string, name: string, secret: string): string {
    "AUTH " + user + " AS " + name + " USING " + secret + CRLF
  }

  function JoinLine(channel: string, name: string): string {
    "JOIN " + channel + " AS " + name + CRLF
  }

  function TextLine(keyword: string, name: string, content: string): string {
    keyword + (" FROM " + (name + (" IS " + (content + CRLF))))
  }

  lemma TextLineBody(keyword: string, name: string, content: string)
    ensures TextLine(keyword, name, content) == keyword + " FROM " + name + " IS " + content + CRLF
  {
    var h := keyword + " FROM " + name;
    assert h + " IS " + content + CRLF == h + (" IS " + (content + CRLF));
    assert h + (" IS " + (content + CRLF)) == keyword + " FROM " + (name + (" IS " + (content + CRLF)));
  }

  const BYE_LINE := "BYE\r\n"

  /** What process_outgoing_msg leaves in the buffer. */
  function TcpEncode(o: Outcome, message: string): string {
    if !o.ok then ""
    else match o.typ
      case Auth => if |o.parts| < 3 then "" else AuthLine(o.parts[0], o.parts[1], o.parts[|o.parts| - 1])
      case Join => if |o.parts| < 1 then "" else JoinLine(o.parts[|o.parts| - 1], o.name)
      case Err => TextLine("ERR", o.name, message)
      case CustomErr => TextLine("ERR", o.name, message)
      case Msg => TextLine("MSG", o.name, message)
      case Bye => BYE_LINE
      case _ => ""
  }

  // ---------- lines the client reads ----------

  function UpperChar(c: char): char {
    if 'a' <= c <= 'z' then (c as int - 32) as char else c
  }

  function Upper(s: string): (t: string)
    ensures |t| == |s| && forall i | 0 <= i < |s| :: t[i] == UpperChar(s[i])
  {
    seq(|s|, i requires 0 <= i < |s| => UpperChar(s[i]))
  }

  /** "is" in any letter case stands at position k. */
  predicate IsAt(s: string, k: nat) {
    k + 1 < |s| && UpperChar(s[k]) == 'I' && UpperChar(s[k + 1]) == 'S'
  }

  predicate ContainsIs(s: string) {
    exists k | 0 <= k < |s| :: IsAt(s, k)
  }

  /** First match of the case-insensitive pattern from position i on. */
  function FindIs(s: string, i: nat): Option<nat>
    decreases |s| - i
  {
    if i + 1 >= |s| then None else if IsAt(s, i) then Some(i) else FindIs(s, i + 1)
  }

  lemma {:induction false} FindIsFirst(s: string, i: nat, k: nat)
    requires i <= k && IsAt(s, k) && forall j | i <= j < k :: !IsAt(s, j)
    ensures FindIs(s, i) == Some(k)
    decreases k - i
  {
    if i < k {
      FindIsFirst(s, i + 1, k);
    }
  }

  /** remove_line_ending. */
  function StripEnd(s: string): string {
    var t := if s != [] && s[|s| - 1] == '\n' then s[..|s| - 1] else s;
    if t != [] && t[|t| - 1] == '\r' then t[..|t| - 1] else t
  }

  /** A decoded frame, or the exception of an extraction that starts past the end of the line. */
  datatype Decoded = Decoded(typ: MsgType, text: string, shown: seq<Shown>) | OutOfRange

  const INVALID := Decoded(InvalidMsg, "", [])

  /** The text after "is " and before the line ending. */
  function Extract(f: string, k: nat): string
    requires k + 3 <= |f|
  {
    StripEnd(f[k + 3..])
  }

  function DecodeReply(f: string, typ: MsgType, prefix: string): Decoded {
    match FindIs(f, 0)
    case None => INVALID
    case Some(k) => if k + 3 > |f| then OutOfRange else Decoded(typ, prefix + Extract(f, k), [])
  }

  function DecodeText(f: string, typ: MsgType, name: string): Decoded {
    match FindIs(f, 0)
    case None => INVALID
    case Some(k) => if k + 3 > |f| then OutOfRange else Decoded(typ, "", [Shown(typ, 0, name, Extract(f, k))])
  }

  datatype Keyword = ByeWord | ReplyWord | ErrWord | MsgWord | OtherWord

  /** The first word of a line, in any letter case. */
  function KeywordOf(w: string): Keyword {
    var u := Upper(w);
    if u == "BYE" then ByeWord
    else if u == "REPLY" then ReplyWord
    else if u == "ERR" then ErrWord
    else if u == "MSG" then MsgWord
    else OtherWord
  }

  /** The type of a REPLY by its second word. */
  function ResultOf(w: string): (t: MsgType)
    ensures t in {ReplyOk, ReplyNok, InvalidMsg}
  {
    var u := Upper(w);
    if u == "OK" then ReplyOk else if u == "NOK" then ReplyNok else InvalidMsg
  }

  /** process_inbound_msg on a frame. */
  function TcpDecode(f: string): Decoded {
    var ts := Fragments(f);
    if ts == [] then INVALID
    else
      var keyword := KeywordOf(ts[0]);
      if |ts| == 1 && keyword == ByeWord then Decoded(Bye, "", [])
      else if |ts| < 4 then INVALID
      else match keyword
        case ReplyWord =>
          (match ResultOf(ts[1])
           case ReplyOk => DecodeReply(f, ReplyOk, "Success: ")
           case ReplyNok => DecodeReply(f, ReplyNok, "Failure: ")
           case _ => INVALID)
        case ErrWord => DecodeText(f, Err, ts[2])
        case MsgWord => DecodeText(f, Msg, ts[2])
        case _ => INVALID
  }

  lemma {:induction false} FindIsSound(s: string, i: nat)
    ensures FindIs(s, i).Some? ==> IsAt(s, FindIs(s, i).value) && FindIs(s, i).value >= i
    decreases |s| - i
  {
    if i + 1 < |s| && !IsAt(s, i) {
      FindIsSound(s, i + 1);
    }
  }

  /** A line of a kind that carries text. */
  predicate CarriesText(f: string) {
    var ts := Fragments(f);
    && |ts| >= 4
    && match KeywordOf(ts[0])
       case ReplyWord => ResultOf(ts[1]) != InvalidMsg
       case ErrWord => true
       case MsgWord => true
       case _ => false
  }

  lemma ExtractionRange(f: string, typ: MsgType, prefix: string)
    ensures DecodeReply(f, typ, prefix) == OutOfRange <==> FindIs(f, 0) == Some(|f| - 2)
    ensures DecodeReply(f, typ, prefix).Decoded? ==> DecodeReply(f, typ, prefix).typ in {typ, InvalidMsg}
    ensures DecodeText(f, typ, prefix) == OutOfRange <==> FindIs(f, 0) == Some(|f| - 2)
    ensures DecodeText(f, typ, prefix).Decoded? ==> DecodeText(f, typ, prefix).typ in {typ, InvalidMsg}
    ensures EndsCrlf(f) ==> FindIs(f, 0) != Some(|f| - 2)
  {
    hide Extract;
    FindIsSound(f, 0);
  }

  /** Lines without text are decoded to BYE or to an invalid message. */
  lemma NoText(f: string)
    requires !CarriesText(f)
    ensures TcpDecode(f).Decoded? && TcpDecode(f).typ in {Bye, InvalidMsg}
  {
    hide DecodeReply, DecodeText, Fragments, KeywordOf, ResultOf;
  }

  /** Lines with text are decoded to the type of their first words, to an invalid message, or not at all. */
  lemma SomeText(f: string)
    requires CarriesText(f)
    ensures TcpDecode(f) == OutOfRange <==> FindIs(f, 0) == Some(|f| - 2)
    ensures TcpDecode(f).Decoded? ==> TcpDecode(f).typ in {ReplyOk, ReplyNok, Err, Msg, InvalidMsg}
  {
    hide DecodeReply, DecodeText, FindIs, Fragments, KeywordOf, ResultOf, EndsCrlf;
    var ts := Fragments(f);
    match KeywordOf(ts[0])
    case ReplyWord =>
      ExtractionRange(f, ReplyOk, "Success: ");
      ExtractionRange(f, ReplyNok, "Failure: ");
      if ResultOf(ts[1]) == ReplyOk { } else { }
    case ErrWord => ExtractionRange(f, Err, ts[2]);
    case MsgWord => ExtractionRange(f, Msg, ts[2]);
  }

  /** Decoding raises an exception exactly when the line carries text and its first "is" stands at its
      very end. */
  lemma InboundRange(f: string)
    ensures TcpDecode(f) == OutOfRange <==> CarriesText(f) && FindIs(f, 0) == Some(|f| - 2)
  {
    hide TcpDecode, CarriesText, FindIs;
    if CarriesText(f) {
      SomeText(f);
    } else {
      NoText(f);
    }
  }

  /** Every frame that ends in CRLF is decoded to a definite type. */
  lemma InboundTotal(f: string)
    ensures TcpDecode(f).Decoded? ==> TcpDecode(f).typ in {Bye, ReplyOk, ReplyNok, Err, Msg, InvalidMsg}
    ensures EndsCrlf(f) ==> TcpDecode(f).Decoded?
  {
    hide TcpDecode, CarriesText, FindIs, EndsCrlf;
    ExtractionRange(f, Msg, "");
    if CarriesText(f) {
      SomeText(f);
    } else {
      NoText(f);
    }
  }

  // ---------- round trips ----------

  /** A word between two spaces. */
  lemma SpacedWord(w: string, rest: string)
    requires IsWord(w)
    ensures Fragments(" " + (w + (" " + rest))) == [w] + Fragments(rest)
  {
    FragmentsSpace(w + (" " + rest));
    FragmentsWord(w, " " + rest);
    FragmentsSpace(rest);
  }

  predicate PlainText(s: string) {
    forall i | 0 <= i < |s| :: Printable(s[i]) || s[i] == ' '
  }

  predicate PlainName(s: string) {
    s != [] && forall i | 0 <= i < |s| :: Printable(s[i])
  }

  lemma StripCrlf(content: string)
    requires PlainText(content)
    ensures StripEnd(content + CRLF) == content
  {
    var s := content + CRLF;
    assert s[..|s| - 1] == content + "\r";
    assert (content + "\r")[..|content|] == content;
  }

  /** No "is" starts in head, not even one that ends after it. */
  predicate NoIsFrom(head: string) {
    forall k | 0 <= k < |head| ::
      UpperChar(head[k]) != 'I' || (k + 1 < |head| && UpperChar(head[k + 1]) != 'S')
  }

  /** The extraction when the first "is" is the keyword that follows head. */
  lemma ExtractAfter(head: string, verb: string, content: string)
    requires Upper(verb) == "IS" && PlainText(content) && NoIsFrom(head)
    ensures var f := head + (verb + (" " + (content + CRLF)));
      FindIs(f, 0) == Some(|head|) && |head| + 3 <= |f| && Extract(f, |head|) == content
  {
    var f := head + (verb + (" " + (content + CRLF)));
    assert Upper(verb)[0] == UpperChar(verb[0]) && Upper(verb)[1] == UpperChar(verb[1]);
    assert f[|head|] == verb[0] && f[|head| + 1] == verb[1];
    assert forall k | 0 <= k < |head| :: f[k] == head[k];
    FindIsFirst(f, 0, |head|);
    assert f[|head| + 3..] == content + CRLF;
    StripCrlf(content);
  }

  lemma NameIsWord(name: string)
    requires PlainName(name)
    ensures IsWord(name)
  {
  }

  /** The fragments of a MSG or ERR line. */
  lemma TextFragments(keyword: string, name: string, content: string)
    requires IsWord(keyword) && PlainName(name)
    ensures Fragments(TextLine(keyword, name, content)) == [keyword, "FROM", name, "IS"] + Fragments(content + CRLF)
  {
    hide Fragments, PlainName;
    NameIsWord(name);
    var t2 := " IS " + (content + CRLF);
    var t1 := " FROM " + (name + t2);
    FragmentsWord(keyword, t1);
    SpacedWord("FROM", name + t2);
    assert t1 == " " + ("FROM" + (" " + (name + t2)));
    FragmentsWord(name, t2);
    SpacedWord("IS", content + CRLF);
    assert t2 == " " + ("IS" + (" " + (content + CRLF)));
    assert Fragments(name + t2) == [name] + (["IS"] + Fragments(content + CRLF));
    assert Fragments(t1) == ["FROM"] + Fragments(name + t2);
  }

  lemma NameWithoutIs(keyword: string, name: string)
    requires keyword == "MSG" || keyword == "ERR"
    requires PlainName(name) && !ContainsIs(name)
    ensures NoIsFrom(keyword + " FROM " + name + " ")
  {
    var head := keyword + " FROM " + name + " ";
    forall k | 0 <= k < |head| && UpperChar(head[k]) == 'I'
      ensures k + 1 < |head| && UpperChar(head[k + 1]) != 'S'
    {
      assert 9 <= k < 9 + |name| && head[k] == name[k - 9];
      if k - 9 + 1 < |name| {
        assert head[k + 1] == name[k - 9 + 1];
        assert !IsAt(name, k - 9);
      }
    }
  }

  lemma NameWithIs(keyword: string, name: string, content: string)
    requires keyword == "MSG" || keyword == "ERR"
    requires PlainName(name) && ContainsIs(name)
    ensures var f := TextLine(keyword, name, content);
      FindIs(f, 0).Some? && 9 <= FindIs(f, 0).value && FindIs(f, 0).value + 1 < 9 + |name|
  {
    var f := TextLine(keyword, name, content);
    var k :| 0 <= k < |name| && IsAt(name, k);
    assert f[9 + k] == name[k] && f[9 + k + 1] == name[k + 1];
    FindIsBound(f, 0, 9 + k);
    FindIsSound(f, 0);
    var j := FindIs(f, 0).value;
    assert forall i | 0 <= i < 9 :: f[i] == (keyword + " FROM ")[i];
  }

  lemma {:induction false} FindIsBound(s: string, i: nat, k: nat)
    requires i <= k && IsAt(s, k)
    ensures FindIs(s, i).Some? && i <= FindIs(s, i).value <= k
    decreases k - i
  {
    if !IsAt(s, i) {
      FindIsBound(s, i + 1, k);
    }
  }

  lemma TextLineSplit(keyword: string, name: string, content: string)
    ensures TextLine(keyword, name, content) == keyword + " FROM " + name + " " + ("IS" + (" " + (content + CRLF)))
  {
    var t := "IS" + (" " + (content + CRLF));
    assert " IS " + (content + CRLF) == " " + t;
    assert keyword + " FROM " + name + " " + t == keyword + " FROM " + (name + (" " + t));
  }

  lemma ReadBack(keyword: string, name: string, content: string)
    requires keyword == "MSG" || keyword == "ERR"
    requires PlainName(name) && PlainText(content) && !ContainsIs(name)
    ensures var f := TextLine(keyword, name, content);
      FindIs(f, 0).Some? && FindIs(f, 0).value + 3 <= |f| && Extract(f, FindIs(f, 0).value) == content
  {
    hide TextLine, Extract, FindIs, ContainsIs, PlainName, PlainText, NoIsFrom;
    NameWithoutIs(keyword, name);
    ExtractAfter(keyword + " FROM " + name + " ", "IS", content);
    TextLineSplit(keyword, name, content);
  }

  lemma ReadWrongly(keyword: string, name: string, content: string)
    requires keyword == "MSG" || keyword == "ERR"
    requires PlainName(name) && PlainText(content) && ContainsIs(name)
    ensures var f := TextLine(keyword, name, content);
      FindIs(f, 0).Some? && (FindIs(f, 0).value + 3 <= |f| ==> Extract(f, FindIs(f, 0).value) != content)
  {
    hide FindIs, ContainsIs, PlainName, PlainText;
    NameWithIs(keyword, name, content);
  }

  /** A MSG or ERR line is read back with the name and content it was written from exactly when the name
      does not contain "is" in any letter case. */
  lemma TextLineRoundTrip(typ: MsgType, name: string, content: string)
    requires typ == Msg || typ == Err
    requires PlainName(name) && PlainText(content)
    ensures var f := TcpEncode(Outcome(true, typ, true, name, []), content);
      TcpDecode(f) == Decoded(typ, "", [Shown(typ, 0, name, content)]) <==> !ContainsIs(name)
  {
    var keyword := if typ == Msg then "MSG" else "ERR";
    var f := TextLine(keyword, name, content);
    hide Fragments, Upper, KeywordOf, TcpDecode, PlainName, PlainText, ContainsIs, TextLine, FindIs, Extract;
    OwnKeywords();
    TextFragments(keyword, name, content);
    FourWords(f, [keyword, "FROM", name, "IS"], Fragments(content + CRLF));
    if ContainsIs(name) {
      ReadWrongly(keyword, name, content);
    } else {
      ReadBack(keyword, name, content);
    }
  }

  lemma OwnKeywords()
    ensures KeywordOf("MSG") == MsgWord && KeywordOf("ERR") == ErrWord
  {
    assert Upper("MSG") == "MSG" && Upper("ERR") == "ERR";
  }

  /** How a line of at least four words is decoded. */
  lemma FourWords(f: string, ws: seq<string>, more: seq<string>)
    requires |ws| == 4 && Fragments(f) == ws + more
    ensures KeywordOf(ws[0]) == MsgWord ==> TcpDecode(f) == DecodeText(f, Msg, ws[2])
    ensures KeywordOf(ws[0]) == ErrWord ==> TcpDecode(f) == DecodeText(f, Err, ws[2])
    ensures KeywordOf(ws[0]) == ReplyWord && ResultOf(ws[1]) == ReplyOk ==>
      TcpDecode(f) == DecodeReply(f, ReplyOk, "Success: ")
    ensures KeywordOf(ws[0]) == ReplyWord && ResultOf(ws[1]) == ReplyNok ==>
      TcpDecode(f) == DecodeReply(f, ReplyNok, "Failure: ")
  {
    hide Fragments, KeywordOf, ResultOf, DecodeText, DecodeReply;
  }

  lemma ThreeWords(f: string)
    requires |Fragments(f)| == 3
    ensures TcpDecode(f) == INVALID
  {
  }

  lemma {:induction false} FragmentsEmpty(s: string)
    ensures Fragments(s) == [] <==> forall i | 0 <= i < |s| :: IsSpace(s[i])
    decreases |s|
  {
    if s != [] && IsSpace(s[0]) {
      FragmentsEmpty(s[1..]);
      assert forall i | 1 <= i < |s| :: s[i] == s[1..][i - 1];
    }
  }

  lemma UpperWord(w: string, keyword: string)
    requires Upper(w) == keyword && keyword in {"REPLY", "OK", "NOK", "IS", "MSG", "ERR", "FROM", "BYE"}
    ensures IsWord(w)
    ensures keyword != "IS" ==> forall k | 0 <= k < |w| :: UpperChar(w[k]) != 'I'
  {
    assert forall k | 0 <= k < |w| :: UpperChar(w[k]) == keyword[k];
    assert forall k | 0 <= k < |w| :: 'A' <= keyword[k] <= 'Z' && (keyword[k] != 'I' || keyword == "IS");
  }

  function ReplyLine(reply: string, result: string, verb: string, content: string): string {
    reply + (" " + (result + (" " + (verb + (" " + (content + CRLF))))))
  }

  /** The fragments of a REPLY line. */
  lemma ReplyFragments(reply: string, result: string, verb: string, content: string)
    requires IsWord(reply) && IsWord(result) && IsWord(verb)
    ensures Fragments(ReplyLine(reply, result, verb, content)) == [reply, result, verb] + Fragments(content + CRLF)
  {
    var t2 := " " + (verb + (" " + (content + CRLF)));
    FragmentsWord(reply, " " + (result + t2));
    FragmentsSpace(result + t2);
    FragmentsWord(result, t2);
    SpacedWord(verb, content + CRLF);
  }

  lemma ReplySplit(reply: string, result: string, verb: string, content: string)
    requires forall k | 0 <= k < |reply| :: UpperChar(reply[k]) != 'I'
    requires forall k | 0 <= k < |result| :: UpperChar(result[k]) != 'I'
    ensures var head := reply + " " + result + " ";
      NoIsFrom(head) && ReplyLine(reply, result, verb, content) == head + (verb + (" " + (content + CRLF)))
  {
    var t := verb + (" " + (content + CRLF));
    var head := reply + " " + result + " ";
    assert reply + (" " + (result + (" " + t))) == head + t;
  }

  lemma ReplyWords(reply: string, result: string)
    requires Upper(reply) == "REPLY" && (Upper(result) == "OK" || Upper(result) == "NOK")
    ensures KeywordOf(reply) == ReplyWord
    ensures ResultOf(result) == if Upper(result) == "OK" then ReplyOk else ReplyNok
  {
  }

  /** A REPLY line in any letter case is read back with its exact content, "is" or no "is" in it,
      exactly when the content holds something besides spaces. */
  lemma ReplyRoundTrip(reply: string, result: string, verb: string, content: string)
    requires Upper(reply) == "REPLY" && Upper(verb) == "IS" && PlainText(content)
    requires Upper(result) == "OK" || Upper(result) == "NOK"
    ensures var d := if Upper(result) == "OK" then Decoded(ReplyOk, "Success: " + content, [])
                     else Decoded(ReplyNok, "Failure: " + content, []);
      TcpDecode(ReplyLine(reply, result, verb, content)) == d <==> exists i | 0 <= i < |content| :: content[i] != ' '
  {
    hide Fragments, KeywordOf, ResultOf, FindIs, Extract, ReplyLine, PlainText, TcpDecode, IsWord, NoIsFrom;
    var f := ReplyLine(reply, result, verb, content);
    ReplyWords(reply, result);
    UpperWord(reply, "REPLY");
    UpperWord(result, Upper(result));
    UpperWord(verb, "IS");
    ReplyFragments(reply, result, verb, content);
    var more := Fragments(content + CRLF);
    if more != [] {
      FourWords(f, [reply, result, verb, more[0]], more[1..]);
    } else {
      ThreeWords(f);
    }
    FragmentsEmpty(content + CRLF);
    BlankContent(content);
    ReplySplit(reply, result, verb, content);
    ExtractAfter(reply + " " + result + " ", verb, content);
  }

  lemma BlankContent(content: string)
    requires PlainText(content)
    ensures var rest := content + CRLF;
      (forall i | 0 <= i < |rest| :: IsSpace(rest[i])) <==> !(exists i | 0 <= i < |content| :: content[i] != ' ')
  {
    var rest := content + CRLF;
    assert forall i | 0 <= i < |content| :: rest[i] == content[i];
  }
}
