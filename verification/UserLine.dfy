/** The user-command parser: a loop over the fragments of a line that branches on a type it changes
    as it goes, and the declarative grammar that it computes. */
module UserLine {
  import opened Chat

  predicate IsSpace(c: char) {
    c == ' ' || '\t' <= c <= '\r'
  }

  /** Length of the run of non-space characters that s starts with. */
  function WordLength(s: string): (n: nat)
    ensures n <= |s| && forall i | 0 <= i < n :: !IsSpace(s[i])
    ensures n < |s| ==> IsSpace(s[n])
  {
    if s == [] || IsSpace(s[0]) then 0 else 1 + WordLength(s[1..])
  }

  predicate IsWord(w: string) {
    w != [] && forall i | 0 <= i < |w| :: !IsSpace(w[i])
  }

  predicate AllWords(ts: seq<string>) {
    forall i | 0 <= i < |ts| :: IsWord(ts[i])
  }

  /** The fragments that formatted extraction reads from s one after the other. */
  function Fragments(s: string): (ts: seq<string>)
    ensures AllWords(ts)
    decreases |s|
  {
    if s == [] then []
    else if IsSpace(s[0]) then Fragments(s[1..])
    else [s[..WordLength(s)]] + Fragments(s[WordLength(s)..])
  }

  lemma {:induction false} WordLengthIs(w: string, s: string)
    requires w <= s && forall i | 0 <= i < |w| :: !IsSpace(w[i])
    requires |w| < |s| ==> IsSpace(s[|w|])
    ensures WordLength(s) == |w|
  {
    if w != [] {
      assert s[0] == w[0];
      WordLengthIs(w[1..], s[1..]);
    }
  }

  /** A word followed by a space, or by nothing, is the first fragment. */
  lemma FragmentsWord(w: string, rest: string)
    requires IsWord(w)
    requires rest == [] || IsSpace(rest[0])
    ensures Fragments(w + rest) == [w] + Fragments(rest)
  {
    var s := w + rest;
    assert s[0] == w[0];
    WordLengthIs(w, s);
    assert s[..|w|] == w && s[|w|..] == rest;
  }

  /** The word or the space at position i of a line. */
  lemma FragmentsAt(line: string, i: nat, j: nat)
    requires i < j <= |line| && forall k | i <= k < j :: !IsSpace(line[k])
    requires j < |line| ==> IsSpace(line[j])
    ensures Fragments(line[i..]) == [line[i..j]] + Fragments(line[j..])
  {
    hide Fragments;
    FragmentsWord(line[i..j], line[j..]);
    assert line[i..] == line[i..j] + line[j..];
  }

  lemma FragmentsSkip(line: string, i: nat)
    requires i < |line| && IsSpace(line[i])
    ensures Fragments(line[i..]) == Fragments(line[i + 1..])
  {
    assert line[i..][1..] == line[i + 1..];
  }

  lemma FragmentsSpace(rest: string)
    ensures Fragments([' '] + rest) == Fragments(rest)
  {
    assert ([' '] + rest)[1..] == rest;
  }

  /** State of the parser between two fragments; Stopped when it has left the loop. */
  datatype Flow = Going | Stopped(ok: bool)
  datatype Scan = Scan(typ: MsgType, ready: bool, name: string, parts: seq<string>,
                       part: nat, support: string, flow: Flow)

  /** What the parser leaves behind in the message. */
  datatype Outcome = Outcome(ok: bool, typ: MsgType, ready: bool, name: string, parts: seq<string>)

  function Begin(typ: MsgType, name: string): Scan {
    Scan(typ, true, name, [], 1, "", Going)
  }

  /** First fragment of a user line that holds count fragments. */
  function ScanCommand(p: Scan, line: string, count: nat, f: string): Scan
    requires f != []
  {
    if f == "/auth" then
      if count != 4 then p.(ready := false, flow := Stopped(false)) else p.(typ := Auth)
    else if f == "/join" then
      if count != 2 then p.(ready := false, flow := Stopped(false)) else p.(typ := Join)
    else if f == "/rename" then
      if count != 2 then p.(ready := false, flow := Stopped(false)) else p.(typ := Rename)
    else if f == "/help" then
      p.(typ := Help, ready := false, flow := Stopped(true))
    else if f[0] == '/' then
      p.(ready := false, flow := Stopped(false))
    else if !ValidParam(line, TextPattern) then
      p.(typ := Msg, flow := Stopped(false))
    else
      p.(typ := Msg)
  }

  /** Parameter of /auth: the user name, the secret, then the display name. */
  function ScanAuth(p: Scan, f: string): Scan {
    if p.part == 1 then
      if ValidParam(f, IdPattern) then p.(parts := p.parts + [f], part := 2)
      else p.(ready := false, flow := Stopped(false))
    else if p.part == 2 then
      if ValidParam(f, SecretPattern) then p.(support := f, part := 3)
      else p.(ready := false, flow := Stopped(false))
    else
      if ValidParam(f, DnamePattern) then p.(parts := p.parts + [f, p.support], name := f)
      else p.(ready := false, flow := Stopped(false))
  }

  /** One turn of the parser's loop. */
  function ScanFragment(p: Scan, line: string, count: nat, f: string): Scan
    requires f != []
  {
    match p.typ
    case UserCmd => ScanCommand(p, line, count, f)
    case Auth => ScanAuth(p, f)
    case Join =>
      if ValidParam(f, IdPattern) then p.(parts := p.parts + [f])
      else p.(ready := false, flow := Stopped(false))
    case Rename =>
      if ValidParam(f, IdPattern) then p.(ready := false, name := f)
      else p.(ready := false, flow := Stopped(false))
    case Err =>
      p.(ready := p.ready && ValidParam(line, TextPattern), flow := Stopped(false))
    case Bye => p.(flow := Stopped(true))
    case _ => p
  }

  /** The parser after the first i fragments. */
  function ScanTo(p: Scan, line: string, ts: seq<string>, i: nat): Scan
    requires i <= |ts| && AllWords(ts)
  {
    if i == 0 then p
    else
      var q := ScanTo(p, line, ts, i - 1);
      if q.flow.Going? then ScanFragment(q, line, |ts|, ts[i - 1]) else q
  }

  function Finish(p: Scan): Outcome {
    Outcome(p.flow == Going || p.flow == Stopped(true), p.typ, p.ready, p.name, p.parts)
  }

  /** The result of parsing a line that starts with type typ. */
  function Check(typ: MsgType, line: string, name: string): Outcome {
    if typ == CustomErr then Finish(Begin(typ, name))
    else Finish(ScanTo(Begin(typ, name), line, Fragments(line), |Fragments(line)|))
  }

  predicate GoodAuth(ts: seq<string>) {
    && |ts| == 4 && ts[0] == "/auth"
    && ValidParam(ts[1], IdPattern) && ValidParam(ts[2], SecretPattern) && ValidParam(ts[3], DnamePattern)
  }

  predicate GoodJoin(ts: seq<string>) {
    |ts| == 2 && ts[0] == "/join" && ValidParam(ts[1], IdPattern)
  }

  predicate GoodRename(ts: seq<string>) {
    |ts| == 2 && ts[0] == "/rename" && ValidParam(ts[1], IdPattern)
  }

  predicate IsHelp(ts: seq<string>) {
    ts != [] && ts[0] == "/help"
  }

  /** A line of chat: its first fragment exists and does not start with a slash. */
  predicate IsChat(ts: seq<string>)
    requires AllWords(ts)
  {
    ts != [] && ts[0][0] != '/'
  }

  /** The commands the user can type, and everything else, as one table over the fragments. */
  function Grammar(line: string, name: string): Outcome {
    var ts := Fragments(line);
    if ts == [] then Outcome(true, UserCmd, true, name, [])
    else if GoodAuth(ts) then Outcome(true, Auth, true, ts[3], [ts[1], ts[3], ts[2]])
    else if GoodJoin(ts) then Outcome(true, Join, true, name, [ts[1]])
    else if GoodRename(ts) then Outcome(true, Rename, false, ts[1], [])
    else if IsHelp(ts) then Outcome(true, Help, false, name, [])
    else if IsChat(ts) then Outcome(ValidParam(line, TextPattern), Msg, true, name, [])
    else if ts[0] == "/auth" && |ts| == 4 then
      Outcome(false, Auth, false, name, if ValidParam(ts[1], IdPattern) then [ts[1]] else [])
    else if ts[0] == "/join" && |ts| == 2 then Outcome(false, Join, false, name, [])
    else if ts[0] == "/rename" && |ts| == 2 then Outcome(false, Rename, false, name, [])
    else Outcome(false, UserCmd, false, name, [])
  }

  /** Types the loop has no branch for: the remaining fragments change nothing. */
  lemma {:induction false} ScanIdle(p: Scan, line: string, ts: seq<string>, i: nat, j: nat)
    requires i <= j <= |ts| && AllWords(ts)
    requires var q := ScanTo(p, line, ts, i); q.flow.Stopped? || q.typ == Msg || q.typ == Confirm
    ensures ScanTo(p, line, ts, j) == ScanTo(p, line, ts, i)
    decreases j - i
  {
    if i < j {
      ScanIdle(p, line, ts, i, j - 1);
    }
  }

  /** The loop computes exactly the table, for every line and every current display name. */
  lemma CheckIsGrammar(line: string, name: string)
    ensures Check(UserCmd, line, name) == Grammar(line, name)
  {
    var ts := Fragments(line);
    var p := Begin(UserCmd, name);
    if ts != [] {
      assert IsWord(ts[0]);
      var p1 := ScanTo(p, line, ts, 1);
      assert ScanTo(p, line, ts, 0) == p;
      assert p1 == ScanCommand(p, line, |ts|, ts[0]);
      if p1.flow.Stopped? || p1.typ == Msg {
        ScanIdle(p, line, ts, 1, |ts|);
      } else if p1.typ == Auth {
        var p2 := ScanTo(p, line, ts, 2);
        var p3 := ScanTo(p, line, ts, 3);
        var p4 := ScanTo(p, line, ts, 4);
      } else {
        var p2 := ScanTo(p, line, ts, 2);
      }
    }
  }

  /** The messages the client makes itself pass the parser unchanged. */
  lemma CheckOwn(typ: MsgType, line: string, name: string)
    requires typ == CustomErr || (typ == Bye && line == "BYE") || (typ == Confirm && line == "")
    ensures Check(typ, line, name) == Outcome(true, typ, true, name, [])
  {
    if typ == Bye {
      FragmentsWord("BYE", "");
      assert "BYE" + "" == "BYE";
      assert Fragments("BYE") == ["BYE"];
      var p := Begin(typ, name);
      assert ScanTo(p, line, ["BYE"], 1) == ScanFragment(p, line, 1, "BYE") == p.(flow := Stopped(true));
    }
  }

  /** The stored display name: at most 20 printable characters. */
  predicate ValidName(name: string) {
    ValidParam(name, DnamePattern)
  }

  /** Only a good /auth or /rename changes the display name, and it stays 1 to 20 printable characters. */
  lemma GrammarName(line: string, name: string)
    requires ValidName(name)
    ensures var o := Grammar(line, name);
      && ValidName(o.name)
      && (o.name != name ==> o.name != [] && (o.typ == Auth || o.typ == Rename) && o.ok)
      && (name != [] ==> o.name != [])
      && (o.typ == Auth && o.ok ==> o.name != [] && |o.parts| == 3 && o.parts[1] == o.name)
      && (o.typ == Auth && o.ready ==> o.ok)
  {
    var ts := Fragments(line);
    if GoodAuth(ts) {
      assert IsWord(ts[3]);
    } else if GoodRename(ts) {
      assert IsWord(ts[1]);
    }
  }

  /** A message that is ready to send is an /auth, a /join, a chat line or a blank line. */
  lemma GrammarReady(line: string, name: string)
    ensures var o := Grammar(line, name);
      && o.typ in {UserCmd, Auth, Join, Rename, Help, Msg}
      && (o.ready ==> o.typ in {UserCmd, Auth, Join, Msg})
      && (o.ready && !o.ok ==> o.typ == Msg)
      && (o.typ == Auth && o.ok ==> |o.parts| == 3)
      && (o.typ == Join && o.ok ==> |o.parts| == 1)
  {
  }

  /** The parameters of a parsed message keep to their patterns. */
  lemma GrammarParts(line: string, name: string)
    ensures var o := Grammar(line, name);
      && o.typ in {UserCmd, Auth, Join, Rename, Help, Msg}
      && (o.typ == Auth && o.ok ==>
            && |o.parts| == 3 && ValidParam(o.parts[0], IdPattern)
            && ValidParam(o.parts[1], DnamePattern) && ValidParam(o.parts[2], SecretPattern)
            && o.parts[0] != [] && o.parts[1] != [] && o.parts[2] != [])
      && (o.typ == Join && o.ok ==> |o.parts| == 1 && ValidParam(o.parts[0], IdPattern) && o.parts[0] != [])
      && (o.typ == Msg && o.ok ==> ValidParam(line, TextPattern) && line != [])
  {
    var ts := Fragments(line);
    if GoodAuth(ts) {
      assert IsWord(ts[1]) && IsWord(ts[2]) && IsWord(ts[3]);
    } else if GoodJoin(ts) {
      assert IsWord(ts[1]);
    }
  }

  lemma ValidParamBytes(p: string, k: Pattern)
    requires ValidParam(p, k)
    ensures NulFree(p) && IsBytes(p)
  {
  }

  /** The display name after a line, whatever the state of the session: that of a good /auth or /rename. */
  function Named(line: string, name: string): string {
    var ts := Fragments(line);
    if GoodAuth(ts) then ts[3] else if GoodRename(ts) then ts[1] else name
  }

  lemma GrammarNamed(line: string, name: string)
    ensures var o := Grammar(line, name);
      (if o.typ == Auth || o.typ == Rename then o.name else name) == Named(line, name)
  {
    hide Fragments, ValidParam;
  }

  /** The lines that are sent as an empty message: blank ones, and chat that is too long or not printable. */
  predicate IsHollow(line: string) {
    var ts := Fragments(line);
    ts == [] || (IsChat(ts) && !ValidParam(line, TextPattern))
  }

  /** A message that is ready to be sent was encoded without its parameters exactly for those lines. */
  lemma GrammarHollow(line: string, name: string)
    ensures var o := Grammar(line, name);
      o.ready ==> (!o.ok || o.typ == UserCmd <==> IsHollow(line))
  {
    hide Fragments, ValidParam;
  }

  /** The lines that take a number, in every state of the session: blank lines, good requests, and chat. */
  predicate IsCounted(line: string) {
    var ts := Fragments(line);
    ts == [] || GoodAuth(ts) || GoodJoin(ts) || IsChat(ts)
  }

  lemma GrammarCounted(line: string, name: string)
    ensures Grammar(line, name).ready <==> IsCounted(line)
  {
    hide Fragments, ValidParam;
  }

  /** What separates words: the space, and the codes 9 to 13. */
  lemma SpaceExact(c: char)
    ensures IsSpace(c) <==> c as int in {9, 10, 11, 12, 13, 32}
  {
  }

  /** The parameters of the grammar in numbers: at most 20, 128, 20 and 1400 characters; letters, digits and the
      hyphen in ids and secrets, codes 33 to 126 in display names, and the space as well in texts. */
  lemma ParamExact(p: string, k: Pattern)
    ensures ValidParam(p, k) <==>
      && |p| <= (match k
                 case IdPattern => 20
                 case SecretPattern => 128
                 case DnamePattern => 20
                 case TextPattern => 1400)
      && forall i | 0 <= i < |p| ::
           var c := p[i] as int;
           match k
           case DnamePattern => 33 <= c <= 126
           case TextPattern => 32 <= c <= 126
           case _ => 48 <= c <= 57 || 65 <= c <= 90 || 97 <= c <= 122 || c == 45
  {
    match k
    case IdPattern =>
    case SecretPattern =>
    case DnamePattern =>
    case TextPattern =>
  }
}
