/** The lines of the TCP variant word by word: what the server reads in the requests that the client writes, and
    which lines of the server, in any letter case, the client takes for which message. */
module TcpCases {
  import opened Chat
  import opened UserLine
  import opened TcpWire

  // ---------- requests ----------

  lemma NoMoreWords()
    ensures Fragments(CRLF) == []
  {
    FragmentsEmpty(CRLF);
  }

  lemma LastWord(w: string)
    requires IsWord(w)
    ensures Fragments(w + CRLF) == [w]
  {
    hide Fragments;
    FragmentsWord(w, CRLF);
    NoMoreWords();
  }

  lemma AuthSplit(user: string, name: string, secret: string)
    ensures AuthLine(user, name, secret)
         == "AUTH" + (" " + (user + (" " + ("AS" + (" " + (name + (" " + ("USING" + (" " + (secret + CRLF))))))))))
  {
    var t := secret + CRLF;
    var h := "AUTH " + user + " AS " + name;
    assert h + " USING " + secret + CRLF == h + (" " + ("USING" + (" " + t)));
    var u := " " + ("USING" + (" " + t));
    assert "AUTH " + user + " AS " + name + u == "AUTH " + user + (" " + ("AS" + (" " + (name + u))));
    var v := " " + ("AS" + (" " + (name + u)));
    assert "AUTH " + user + v == "AUTH" + (" " + (user + v));
  }

  /** The words of an AUTH line. */
  lemma AuthWords(user: string, name: string, secret: string)
    requires IsWord(user) && IsWord(name) && IsWord(secret)
    ensures Fragments(AuthLine(user, name, secret)) == ["AUTH", user, "AS", name, "USING", secret]
  {
    hide Fragments, AuthLine;
    AuthSplit(user, name, secret);
    var last := secret + CRLF;
    LastWord(secret);
    SpacedWord("USING", last);
    var t := "USING" + (" " + last);
    FragmentsWord(name, " " + t);
    FragmentsSpace(t);
    FragmentsWord("USING", " " + last);
    FragmentsSpace(last);
    var u := name + (" " + t);
    FragmentsWord("AS", " " + u);
    FragmentsSpace(u);
    var v := "AS" + (" " + u);
    FragmentsWord(user, " " + v);
    FragmentsSpace(v);
    var w := user + (" " + v);
    FragmentsWord("AUTH", " " + w);
    FragmentsSpace(w);
  }

  lemma JoinSplit(channel: string, name: string)
    ensures JoinLine(channel, name) == "JOIN" + (" " + (channel + (" " + ("AS" + (" " + (name + CRLF))))))
  {
    var t := name + CRLF;
    assert "JOIN " + channel + " AS " + name + CRLF == "JOIN " + channel + (" " + ("AS" + (" " + t)));
    var u := " " + ("AS" + (" " + t));
    assert "JOIN " + channel + u == "JOIN" + (" " + (channel + u));
  }

  /** The words of a JOIN line. */
  lemma JoinWords(channel: string, name: string)
    requires IsWord(channel) && IsWord(name)
    ensures Fragments(JoinLine(channel, name)) == ["JOIN", channel, "AS", name]
  {
    hide Fragments, JoinLine;
    JoinSplit(channel, name);
    var last := name + CRLF;
    LastWord(name);
    FragmentsWord("AS", " " + last);
    FragmentsSpace(last);
    var u := "AS" + (" " + last);
    FragmentsWord(channel, " " + u);
    FragmentsSpace(u);
    var v := channel + (" " + u);
    FragmentsWord("JOIN", " " + v);
    FragmentsSpace(v);
  }

  /** The line of an accepted /auth carries what the user typed: the user name, the display name and the secret,
      although the user types the secret second. */
  lemma AuthDecodable(line: string, name: string)
    requires GoodAuth(Fragments(line))
    ensures var ts := Fragments(line);
      Fragments(TcpEncode(Grammar(line, name), line)) == ["AUTH", ts[1], "AS", ts[3], "USING", ts[2]]
  {
    var ts := Fragments(line);
    assert IsWord(ts[1]) && IsWord(ts[2]) && IsWord(ts[3]);
    AuthWords(ts[1], ts[3], ts[2]);
    hide Fragments, AuthLine, ValidParam;
  }

  /** The line of an accepted /join carries the channel that the user typed and the current display name. */
  lemma JoinDecodable(line: string, name: string)
    requires GoodJoin(Fragments(line)) && ValidName(name) && name != []
    ensures Fragments(TcpEncode(Grammar(line, name), line)) == ["JOIN", Fragments(line)[1], "AS", name]
  {
    var ts := Fragments(line);
    assert IsWord(ts[1]);
    ValidWord(name);
    JoinWords(ts[1], name);
    hide Fragments, JoinLine, ValidParam;
  }

  lemma ValidWord(name: string)
    requires ValidName(name) && name != []
    ensures IsWord(name)
  {
  }

  // ---------- lines of the server in any letter case ----------

  /** A MSG or ERR line with its keywords as the server writes them. */
  function ServerLine(keyword: string, preposition: string, name: string, verb: string, content: string): string {
    keyword + (" " + (preposition + (" " + (name + (" " + (verb + (" " + (content + CRLF))))))))
  }

  lemma ServerWords(keyword: string, preposition: string, name: string, verb: string, content: string)
    requires IsWord(keyword) && IsWord(preposition) && IsWord(name) && IsWord(verb)
    ensures Fragments(ServerLine(keyword, preposition, name, verb, content))
         == [keyword, preposition, name, verb] + Fragments(content + CRLF)
  {
    hide Fragments;
    var last := content + CRLF;
    FragmentsWord(verb, " " + last);
    FragmentsSpace(last);
    var t := verb + (" " + last);
    FragmentsWord(name, " " + t);
    FragmentsSpace(t);
    var u := name + (" " + t);
    FragmentsWord(preposition, " " + u);
    FragmentsSpace(u);
    var v := preposition + (" " + u);
    FragmentsWord(keyword, " " + v);
    FragmentsSpace(v);
  }

  predicate NoI(s: string) {
    forall k | 0 <= k < |s| :: UpperChar(s[k]) != 'I'
  }

  lemma HeadWithoutIs(a: string, name: string)
    requires NoI(a) && !ContainsIs(name)
    ensures NoIsFrom(a + name + " ")
  {
    var head := a + name + " ";
    forall k | 0 <= k < |head| && UpperChar(head[k]) == 'I'
      ensures k + 1 < |head| && UpperChar(head[k + 1]) != 'S'
    {
      assert |a| <= k < |a| + |name| && head[k] == name[k - |a|];
      if k - |a| + 1 < |name| {
        assert head[k + 1] == name[k - |a| + 1];
        assert !IsAt(name, k - |a|);
      }
    }
  }

  lemma HeadWithIs(a: string, name: string, rest: string)
    requires NoI(a) && ContainsIs(name)
    ensures var k := FindIs(a + name + rest, 0); k.Some? && |a| <= k.value && k.value + 1 < |a| + |name|
  {
    var f := a + name + rest;
    var k :| 0 <= k < |name| && IsAt(name, k);
    assert f[|a| + k] == name[k] && f[|a| + k + 1] == name[k + 1];
    FindIsBound(f, 0, |a| + k);
    FindIsSound(f, 0);
    assert forall i | 0 <= i < |a| :: f[i] == a[i];
  }

  lemma ServerSplit(keyword: string, preposition: string, name: string, verb: string, content: string)
    ensures var a := keyword + " " + preposition + " ";
      ServerLine(keyword, preposition, name, verb, content) == a + name + " " + (verb + (" " + (content + CRLF)))
  {
    var t := verb + (" " + (content + CRLF));
    var a := keyword + " " + preposition + " ";
    assert a + name + " " + t == a + (name + (" " + t));
    assert a + (name + (" " + t)) == keyword + (" " + (preposition + (" " + (name + (" " + t)))));
  }

  lemma ReadAnyCase(keyword: string, preposition: string, name: string, verb: string, content: string)
    requires NoI(keyword) && NoI(preposition) && Upper(verb) == "IS" && PlainText(content)
    ensures var f := ServerLine(keyword, preposition, name, verb, content);
      && FindIs(f, 0).Some?
      && (FindIs(f, 0).value + 3 <= |f| && Extract(f, FindIs(f, 0).value) == content <==> !ContainsIs(name))
  {
    hide ServerLine, FindIs, ContainsIs, PlainText, NoIsFrom, IsAt;
    var a := keyword + " " + preposition + " ";
    var rest := " " + (verb + (" " + (content + CRLF)));
    ServerSplit(keyword, preposition, name, verb, content);
    var f := ServerLine(keyword, preposition, name, verb, content);
    if ContainsIs(name) {
      assert a + name + " " + (verb + (" " + (content + CRLF))) == a + name + rest;
      HeadWithIs(a, name, rest);
    } else {
      hide Extract;
      HeadWithoutIs(a, name);
      ExtractAfter(a + name + " ", verb, content);
    }
  }

  /** A MSG or ERR line of the server, with its keywords in any letter case, is read with its exact name and
      content if and only if the name does not contain "is". */
  lemma TextAnyCase(typ: MsgType, keyword: string, preposition: string, name: string, verb: string, content: string)
    requires (typ == Msg && Upper(keyword) == "MSG") || (typ == Err && Upper(keyword) == "ERR")
    requires Upper(preposition) == "FROM" && Upper(verb) == "IS" && PlainName(name) && PlainText(content)
    ensures TcpDecode(ServerLine(keyword, preposition, name, verb, content))
         == Decoded(typ, "", [Shown(typ, 0, name, content)])
       <==> !ContainsIs(name)
  {
    UpperWord(keyword, Upper(keyword));
    UpperWord(preposition, "FROM");
    UpperWord(verb, "IS");
    NameIsWord(name);
    hide ServerLine, Fragments, TcpDecode, FindIs, Extract, ContainsIs, PlainName, PlainText, IsWord, Upper;
    var f := ServerLine(keyword, preposition, name, verb, content);
    ServerWords(keyword, preposition, name, verb, content);
    FourWords(f, [keyword, preposition, name, verb], Fragments(content + CRLF));
    ReadAnyCase(keyword, preposition, name, verb, content);
  }

  /** BYE in any letter case. */
  lemma ByeAnyCase(keyword: string)
    requires Upper(keyword) == "BYE"
    ensures TcpDecode(keyword + CRLF) == Decoded(Bye, "", [])
  {
    UpperWord(keyword, "BYE");
    LastWord(keyword);
    hide Fragments, IsWord;
  }

  // ---------- which lines are which messages ----------

  lemma {:induction false} FindIsComplete(s: string, i: nat)
    ensures FindIs(s, i).Some? <==> exists k | i <= k < |s| :: IsAt(s, k)
    decreases |s| - i
  {
    if i + 1 < |s| && !IsAt(s, i) {
      FindIsComplete(s, i + 1);
    }
  }

  /** A line whose first word is the keyword, in any letter case, with at least four words and an "is". */
  predicate Speaks(f: string, keyword: string) {
    var ts := Fragments(f);
    |ts| >= 4 && Upper(ts[0]) == keyword && ContainsIs(f)
  }

  /** The type of a received line is decided by its words alone: BYE by a single word; REPLY, ERR and MSG by the
      first of at least four words in a line with an "is", and the result of a REPLY by the second; everything
      else is an invalid message. */
  lemma InboundKinds(f: string)
    requires EndsCrlf(f)
    ensures var ts, d := Fragments(f), TcpDecode(f);
      && d.Decoded?
      && (d.typ == Bye <==> |ts| == 1 && Upper(ts[0]) == "BYE")
      && (d.typ == ReplyOk <==> Speaks(f, "REPLY") && Upper(ts[1]) == "OK")
      && (d.typ == ReplyNok <==> Speaks(f, "REPLY") && Upper(ts[1]) == "NOK")
      && (d.typ == Err <==> Speaks(f, "ERR"))
      && (d.typ == Msg <==> Speaks(f, "MSG"))
      && d.typ in {Bye, ReplyOk, ReplyNok, Err, Msg, InvalidMsg}
  {
    InboundTotal(f);
    FindIsComplete(f, 0);
    FindIsSound(f, 0);
    hide Fragments, FindIs, Extract, EndsCrlf, Upper;
    var ts := Fragments(f);
    if |ts| >= 4 {
      if KeywordOf(ts[0]) == ReplyWord { } else { }
    }
  }

  lemma StripOne(s: string, c: char)
    ensures var t := s + [c]; t != "" && t[|t| - 1] == c && t[..|t| - 1] == s
  {
  }

  lemma StripLast(s: string)
    ensures (s == "" || s[|s| - 1] != '\r') ==> StripEnd(s + ['\n']) == s
    ensures (s == "" || s[|s| - 1] != '\n') ==> StripEnd(s + ['\r']) == s
    ensures (s == "" || s[|s| - 1] !in {'\r', '\n'}) ==> StripEnd(s) == s
  {
    StripOne(s, '\n');
    StripOne(s, '\r');
  }

  /** What remove_line_ending takes off: one final LF, and then one final CR, of whatever text. */
  lemma StripExact(s: string)
    ensures StripEnd(s + ['\r'] + ['\n']) == s
    ensures (s == "" || s[|s| - 1] != '\r') ==> StripEnd(s + ['\n']) == s
    ensures (s == "" || s[|s| - 1] != '\n') ==> StripEnd(s + ['\r']) == s
    ensures (s == "" || s[|s| - 1] !in {'\r', '\n'}) ==> StripEnd(s) == s
  {
    StripLast(s);
    StripOne(s + ['\r'], '\n');
    StripOne(s, '\r');
  }

  /** A stream without a terminator is cut into pieces of 1500 bytes. */
  lemma FullBuffer(stream: string)
    requires |stream| >= 1500 && forall m | 0 <= m <= 1500 :: !EndsCrlf(stream[..m])
    ensures NextFrame(stream) == Some(1500)
  {
    NextFrameIs(stream, 1500);
  }
}
