/** Vocabulary shared by both variants of the client: message types, session states, parameter
    patterns, C-string helpers and the environment of the poll loop. */
module Chat {

  const BUFFER_SIZE := 1500
  const EXIT_SUCCESS := 0
  const EXIT_FAILURE := 1

  datatype Option<+T> = None | Some(value: T)

  datatype MsgType =
    | Auth | Join | Err | Bye | Msg | ReplyOk | ReplyNok | Rename | Help
    | UserCmd | ToBeDecided | Confirm | InvalidMsg | CustomErr

  datatype FsmState = StartState | AuthState | OpenState

  /** The parameter kinds that user input is validated against. */
  datatype Pattern = IdPattern | SecretPattern | DnamePattern | TextPattern

  /** What one call of poll reports: a failure, or the POLLIN bit of the socket and the
      POLLIN/POLLHUP bit of standard input. */
  datatype Poll = PollFailed | Revents(socket: bool, stdin: bool)

  /** What getline yields. */
  datatype Stdin = Line(text: string) | Eof

  /** A line that a received message puts on the console. */
  datatype Shown = Shown(typ: MsgType, id: int, name: string, text: string)

  const ERR_TEXT := "Unknown or invalid message at current state."

  predicate IsAlnum(c: char) {
    '0' <= c <= '9' || 'A' <= c <= 'Z' || 'a' <= c <= 'z'
  }

  predicate Printable(c: char) {
    '!' <= c <= '~'
  }

  predicate ValidParam(p: string, k: Pattern) {
    match k
    case IdPattern => |p| <= 20 && forall i | 0 <= i < |p| :: IsAlnum(p[i]) || p[i] == '-'
    case SecretPattern => |p| <= 128 && forall i | 0 <= i < |p| :: IsAlnum(p[i]) || p[i] == '-'
    case DnamePattern => |p| <= 20 && forall i | 0 <= i < |p| :: Printable(p[i])
    case TextPattern => |p| <= 1400 && forall i | 0 <= i < |p| :: Printable(p[i]) || p[i] == ' '
  }

  /** One byte as a C++ char holds it. */
  predicate IsByte(c: char) {
    c < '\U{100}'
  }

  predicate IsBytes(s: string) {
    forall i | 0 <= i < |s| :: IsByte(s[i])
  }

  predicate NulFree(s: string) {
    '\0' !in s
  }

  /** The C string that starts at the first character of s. */
  function UpToNul(s: string): (t: string)
    ensures NulFree(t) && t <= s
    ensures |t| < |s| ==> s[|t|] == '\0'
  {
    if s == [] || s[0] == '\0' then [] else [s[0]] + UpToNul(s[1..])
  }

  /** A C string is determined by where its first NUL stands. */
  lemma {:induction false} UpToNulIs(a: string, s: string)
    requires NulFree(a) && a <= s
    requires |a| < |s| ==> s[|a|] == '\0'
    ensures UpToNul(s) == a
  {
    if a != [] {
      assert s[0] == a[0] && a[0] in a;
      UpToNulIs(a[1..], s[1..]);
    }
  }

  predicate NoDup(s: seq<int>) {
    forall i, j | 0 <= i < j < |s| :: s[i] != s[j]
  }

  // ---------- the language of the messages that a client originates ----------

  /** AUTH* (JOIN | MSG)* with an AUTH first; UserCmd stands for a blank line, which is sent like a MSG. */
  predicate Talk(w: seq<MsgType>) {
    && (forall i | 0 <= i < |w| :: w[i] in {Auth, Join, Msg, UserCmd})
    && (w != [] ==> w[0] == Auth)
    && forall i, j | 0 <= i < j < |w| && w[j] == Auth :: w[i] == Auth
  }

  predicate OnlyAuths(w: seq<MsgType>) {
    forall i | 0 <= i < |w| :: w[i] == Auth
  }

  /** AUTH* (JOIN | MSG)* [ERR] [BYE], at least one AUTH before any JOIN or MSG, ERR directly before BYE. */
  predicate Language(w: seq<MsgType>) {
    Talk(w) || (w != [] && w[|w| - 1] == Bye
                && (Talk(w[..|w| - 1]) || (|w| >= 2 && w[|w| - 2] == Err && Talk(w[..|w| - 2]))))
  }

  lemma NoTalk()
    ensures Talk([]) && OnlyAuths([])
  {
  }

  lemma TalkEnds(w: seq<MsgType>)
    requires Talk(w)
    ensures Language(w) && Language(w + [Bye]) && Language(w + [Err] + [Bye])
  {
    assert (w + [Bye])[..|w|] == w;
    assert (w + [Err] + [Bye])[..|w|] == w;
  }

  lemma TalkMore(w: seq<MsgType>, typ: MsgType)
    requires Talk(w) && w != [] && typ in {Join, Msg, UserCmd}
    ensures Talk(w + [typ])
  {
  }

  lemma AuthMore(w: seq<MsgType>)
    requires OnlyAuths(w)
    ensures Talk(w) && OnlyAuths(w + [Auth])
  {
  }
}
