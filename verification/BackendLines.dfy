/** The line vocabulary between gateway and C++ server: what each side prints and how the other reads it. */
module BackendLines {
  import opened Text

  // Server to gateway.

  datatype BackendEvent =
    | Welcome(nickname: string)
    | Sys(text: string)
    | Msg(sender: string, text: string)
    | Priv(sender: string, text: string)
    | PrivSent(recipient: string, text: string)
    | Nick(oldNick: string, newNick: string)
    | Listing(count: string, names: seq<string>)
    | Err(code: string, text: string)
    | Unknown(raw: string)

  function ParseBackendLine(payload: string): BackendEvent {
    var (kind, rest) := SplitFirst(payload);
    Interpret(kind, rest, payload)
  }

  function Interpret(kind: string, rest: string, payload: string): BackendEvent {
    var (first, second) := SplitFirst(rest);
    match kind
    case "WELCOME" => Welcome(rest)
    case "SYS" => Sys(rest)
    case "MSG" => Msg(first, second)
    case "PRIV" => Priv(first, second)
    case "PRIV_SENT" => PrivSent(first, second)
    case "NICK" => Nick(first, second)
    case "LIST" => Listing(first, ListedNames(second))
    case "ERR" => Err(first, second)
    case _ => Unknown(payload)
  }

  /** split(" ") */
  function SplitAll(s: string): seq<string>
    decreases |s|
  {
    var i := IndexOf(s, ' ');
    if i == |s| then [s] else [s[..i]] + SplitAll(s[i + 1..])
  }

  function ListedNames(text: string): seq<string> { if text == "" then [] else SplitAll(text) }

  function Fields(tag: string, field: string, text: string): string {
    tag + " " + field + " " + text
  }

  function WelcomeLine(nickname: string): string { "WELCOME " + nickname }
  function JoinedLine(nickname: string): string { "SYS " + nickname + " has joined." }
  function LeftLine(nickname: string): string { "SYS " + nickname + " has left." }
  function MsgLine(sender: string, line: string): string { Fields("MSG", sender, line) }
  function PrivLine(sender: string, text: string): string { Fields("PRIV", sender, text) }
  function PrivSentLine(target: string, text: string): string { Fields("PRIV_SENT", target, text) }
  function NickLine(oldNick: string, newNick: string): string { Fields("NICK", oldNick, newNick) }
  function ErrLine(code: string, text: string): string { Fields("ERR", code, text) }
  const SERVER_FULL := ErrLine("SERVER_FULL", "Server is full, try again later")
  const FRAME_TOO_LARGE := ErrLine("FRAME_TOO_LARGE", "Message exceeds the server's maximum size")
  const GOODBYE := "SYS Server is shutting down. Goodbye!"

  /** handle_list's reply. */
  function ListLine(names: seq<string>): string {
    "LIST " + Decimal(|names|) + Spaced(names)
  }

  function Spaced(names: seq<string>): string {
    if names == [] then "" else " " + names[0] + Spaced(names[1..])
  }

  // Gateway to server.

  function FormatNickCommand(nickname: string): string { "/nick " + nickname }
  function FormatMsgCommand(target: string, text: string): string { Fields("/msg", target, text) }
  function FormatChatLine(text: string): string { text }

  datatype LineCommand =
    | Blank
    | Exit
    | SetNick(args: string)
    | Private(args: string)
    | ListUsers
    | BadCommand(command: string)
    | Chat(line: string)

  /** handle_line's decision. */
  function ParseLine(raw: string): LineCommand {
    var line := StripLineEnd(raw);
    if line == "" then Blank
    else if line[0] == '/' then
      var (command, rest) := SplitFirst(line);
      ParseCommand(command, rest)
    else Chat(line)
  }

  function ParseCommand(command: string, rest: string): LineCommand {
    match command
    case "/nick" => SetNick(rest)
    case "/msg" => Private(rest)
    case "/list" => ListUsers
    case "/exit" => Exit
    case _ => BadCommand(command)
  }

  /** handle_line with its loop that pops line breaks off the end. */
  method HandleLine(raw: string) returns (command: LineCommand)
    ensures command == ParseLine(raw)
  {
    var line := raw;
    while line != "" && LineBreak(line[|line| - 1])
      invariant StripLineEnd(line) == StripLineEnd(raw)
      decreases |line|
    {
      line := line[..|line| - 1];
    }
    if line == "" { return Blank; }
    if line[0] == '/' {
      var (name, rest) := SplitFirst(line);
      return ParseCommand(name, rest);
    }
    return Chat(line);
  }

  datatype NickRequest = NickRejected(code: string, text: string) | NickAccepted(nickname: string)

  /** handle_nick up to the lock: exactly one valid token is accepted. */
  function ParseNickArgs(args: string): NickRequest {
    var (token, rest) := NextToken(args);
    if NextToken(rest).0 != "" then NickRejected("NICK_INVALID", "Nickname must not contain spaces")
    else if token == "" then NickRejected("NICK_EMPTY", "Usage: /nick <name>")
    else if !ValidNickname(token) then
      NickRejected("NICK_INVALID",
        "Nickname must be 1-24 characters: letters, digits, '_' or '-' only")
    else NickAccepted(token)
  }

  datatype PrivateRequest = PrivateUsage | PrivateTo(target: string, text: string)

  function ParsePrivateArgs(args: string): PrivateRequest {
    var (target, text) := SplitFirst(args);
    if target == "" || text == "" then PrivateUsage else PrivateTo(target, text)
  }

  // Round trips.

  lemma Tagged(tag: string, field: string, text: string)
    requires SpaceFree(tag) && SpaceFree(field)
    ensures SplitFirst(Fields(tag, field, text)) == (tag, field + " " + text)
    ensures SplitFirst(field + " " + text) == (field, text)
  {
    SplitField(tag, field + " " + text);
    SplitField(field, text);
    assert Fields(tag, field, text) == tag + " " + (field + " " + text);
  }

  lemma TaggedIsInterpreted(tag: string, field: string, text: string)
    requires SpaceFree(tag) && SpaceFree(field)
    ensures ParseBackendLine(Fields(tag, field, text)) == Interpret(tag, field + " " + text, Fields(tag, field, text))
    ensures SplitFirst(field + " " + text) == (field, text)
  {
    Tagged(tag, field, text);
  }

  /** Every relay the server prints with a valid nickname is read back with the same fields. */
  lemma WelcomeParses(nick: string)
    ensures ParseBackendLine(WelcomeLine(nick)) == Welcome(nick)
  {
    assert WelcomeLine(nick) == "WELCOME" + " " + nick;
    SplitField("WELCOME", nick);
  }

  lemma InterpretPair(rest: string, payload: string, first: string, second: string)
    requires SplitFirst(rest) == (first, second)
    ensures Interpret("MSG", rest, payload) == Msg(first, second)
    ensures Interpret("PRIV", rest, payload) == Priv(first, second)
    ensures Interpret("PRIV_SENT", rest, payload) == PrivSent(first, second)
    ensures Interpret("NICK", rest, payload) == Nick(first, second)
  {
  }

  lemma MsgParses(sender: string, text: string)
    requires SpaceFree(sender)
    ensures ParseBackendLine(MsgLine(sender, text)) == Msg(sender, text)
  {
    TaggedIsInterpreted("MSG", sender, text);
    InterpretPair(sender + " " + text, MsgLine(sender, text), sender, text);
  }

  lemma PrivParses(sender: string, text: string)
    requires SpaceFree(sender)
    ensures ParseBackendLine(PrivLine(sender, text)) == Priv(sender, text)
  {
    TaggedIsInterpreted("PRIV", sender, text);
    InterpretPair(sender + " " + text, PrivLine(sender, text), sender, text);
  }

  lemma PrivSentParses(recipient: string, text: string)
    requires SpaceFree(recipient)
    ensures ParseBackendLine(PrivSentLine(recipient, text)) == PrivSent(recipient, text)
  {
    TaggedIsInterpreted("PRIV_SENT", recipient, text);
    InterpretPair(recipient + " " + text, PrivSentLine(recipient, text), recipient, text);
  }

  lemma NickParses(oldNick: string, newNick: string)
    requires SpaceFree(oldNick)
    ensures ParseBackendLine(NickLine(oldNick, newNick)) == Nick(oldNick, newNick)
  {
    TaggedIsInterpreted("NICK", oldNick, newNick);
    InterpretPair(oldNick + " " + newNick, NickLine(oldNick, newNick), oldNick, newNick);
  }

  lemma SplitOne(head: string, tail: string)
    requires SpaceFree(head)
    ensures SplitAll(head + " " + tail) == [head] + SplitAll(tail)
    ensures SplitAll(head) == [head]
  {
    IndexOfAppend(head, ' ', tail);
    var s := head + " " + tail;
    assert s == head + [' '] + tail;
    assert s[..|head|] == head && s[|head| + 1..] == tail;
  }

  lemma SpacedHead(name: string, names: seq<string>)
    requires names != []
    ensures name + Spaced(names) == name + " " + (names[0] + Spaced(names[1..]))
  {
    assert name + (" " + names[0] + Spaced(names[1..])) == name + " " + (names[0] + Spaced(names[1..]));
  }

  lemma {:induction false} SplitSpaced(name: string, names: seq<string>)
    requires SpaceFree(name) && forall i :: 0 <= i < |names| ==> SpaceFree(names[i])
    ensures SplitAll(name + Spaced(names)) == [name] + names
    decreases |names|
  {
    if names == [] {
      SplitOne(name, "");
      assert name + Spaced(names) == name;
    } else {
      var next, rest := names[0], names[1..];
      TailSpaceFree(names);
      SplitSpaced(next, rest);
      SplitOne(name, next + Spaced(rest));
      SpacedHead(name, names);
      HeadAndTail(names);
    }
  }

  /** A LIST reply is read back as its names, in order, with their number in decimal. */
  lemma ListParses(names: seq<string>)
    requires forall i :: 0 <= i < |names| ==> names[i] != "" && SpaceFree(names[i])
    ensures ParseBackendLine(ListLine(names)) == Listing(Decimal(|names|), names)
    ensures DecimalValue(Decimal(|names|)) == |names|
  {
    DecimalRoundTrip(|names|);
    if names == [] { EmptyListParses(); } else { SomeParse(names); }
  }

  lemma TailSpaceFree(names: seq<string>)
    requires names != [] && forall i :: 0 <= i < |names| ==> SpaceFree(names[i])
    ensures forall i :: 0 <= i < |names[1..]| ==> SpaceFree(names[1..][i])
  {
    forall i | 0 <= i < |names[1..]| ensures SpaceFree(names[1..][i]) { assert names[1..][i] == names[i + 1]; }
  }

  lemma HeadAndTail(names: seq<string>)
    requires names != []
    ensures names == [names[0]] + names[1..]
  {
  }

  lemma SomeParse(names: seq<string>)
    requires names != [] && forall i :: 0 <= i < |names| ==> names[i] != "" && SpaceFree(names[i])
    ensures ParseBackendLine(ListLine(names)) == Listing(Decimal(|names|), names)
  {
    TailSpaceFree(names);
    HeadAndTail(names);
    NamesParse(names[0], names[1..], names);
  }

  lemma EmptyListParses()
    ensures ParseBackendLine(ListLine([])) == Listing(Decimal(0), [])
  {
    var count := Decimal(0);
    assert ListLine([]) == "LIST" + " " + count;
    SplitField("LIST", count);
    SplitField(count, "");
    InterpretList(count, ListLine([]), count, "");
  }

  lemma NamesParse(name: string, rest: seq<string>, names: seq<string>)
    requires name != "" && SpaceFree(name) && forall i :: 0 <= i < |rest| ==> SpaceFree(rest[i])
    requires names == [name] + rest
    ensures ParseBackendLine(ListLine(names)) == Listing(Decimal(|names|), names)
  {
    var text := name + Spaced(rest);
    ListedSplit(name, rest);
    assert names[0] == name && names[1..] == rest;
    ListLineFields(names, text);
    ListedText(Decimal(|names|), text, ListLine(names));
  }

  lemma ListedSplit(name: string, names: seq<string>)
    requires name != "" && SpaceFree(name) && forall i :: 0 <= i < |names| ==> SpaceFree(names[i])
    ensures ListedNames(name + Spaced(names)) == [name] + names
  {
    SplitSpaced(name, names);
    assert |name + Spaced(names)| > 0;
  }

  lemma ListLineFields(names: seq<string>, text: string)
    requires names != [] && text == names[0] + Spaced(names[1..])
    ensures ListLine(names) == Fields("LIST", Decimal(|names|), text)
  {
    Regrouped(Decimal(|names|), names[0], Spaced(names[1..]));
  }

  lemma Regrouped(count: string, name: string, rest: string)
    ensures "LIST " + count + (" " + name + rest) == Fields("LIST", count, name + rest)
  {
  }

  lemma ListedText(count: string, text: string, line: string)
    requires SpaceFree(count) && line == Fields("LIST", count, text)
    ensures ParseBackendLine(line) == Listing(count, ListedNames(text))
  {
    TaggedIsInterpreted("LIST", count, text);
    InterpretList(count + " " + text, line, count, text);
  }

  lemma InterpretList(rest: string, payload: string, first: string, second: string)
    requires SplitFirst(rest) == (first, second)
    ensures Interpret("LIST", rest, payload) == Listing(first, ListedNames(second))
  {
  }

  /** What every other client's gateway session decodes when `sender` says `text` in public. */
  function PublicDelivery(sender: string, text: string): Option<BackendEvent> {
    match ParseLine(FormatChatLine(text))
    case Chat(line) => Some(ParseBackendLine(MsgLine(sender, line)))
    case _ => None
  }

  lemma CommandsAreNotChat(command: string, rest: string)
    ensures !ParseCommand(command, rest).Chat?
  {
  }

  lemma ParsedChat(text: string)
    ensures var line := StripLineEnd(text);
            if line != "" && line[0] != '/' then ParseLine(text) == Chat(line) else !ParseLine(text).Chat?
  {
    var line := StripLineEnd(text);
    if line != "" && line[0] == '/' {
      CommandsAreNotChat(SplitFirst(line).0, SplitFirst(line).1);
    }
  }

  lemma ChatIsRelayed(sender: string, text: string)
    requires ValidNickname(sender)
    ensures var line := StripLineEnd(text);
            PublicDelivery(sender, text) == if line != "" && line[0] != '/' then Some(Msg(sender, line)) else None
  {
    ValidNicknameIsSpaceFree(sender);
    MsgParses(sender, StripLineEnd(text));
    ParsedChat(text);
  }

  /** Public text arrives unchanged exactly when it is not empty, is not read as a command,
      and has no line break at its end. */
  lemma PublicFidelity(sender: string, text: string)
    requires ValidNickname(sender)
    ensures PublicDelivery(sender, text) == Some(Msg(sender, text))
       <==> text != "" && text[0] != '/' && !EndsInLineBreak(text)
  {
    ChatIsRelayed(sender, text);
    StripIsIdentity(text);
  }

  /** What a private message turns into: the events decoded by the recipient and by the sender. */
  function PrivateDelivery(sender: string, target: string, text: string): Option<(BackendEvent, BackendEvent)> {
    match ParseLine(FormatMsgCommand(target, text))
    case Private(args) => (
      match ParsePrivateArgs(args)
      case PrivateTo(t, x) => Some((ParseBackendLine(PrivLine(sender, x)), ParseBackendLine(PrivSentLine(t, x))))
      case PrivateUsage => None)
    case _ => None
  }

  lemma CommandParses(command: string, field: string, text: string)
    requires SpaceFree(command) && SpaceFree(field)
    requires command != "" && command[0] == '/'
    ensures ParseLine(Fields(command, field, text)) == ParseCommand(command, field + " " + StripLineEnd(text))
  {
    var head, kept := command + " " + field + " ", StripLineEnd(text);
    StripSuffix(head, text);
    Tagged(command, field, kept);
  }

  /** A private message arrives, and is confirmed, with its own text exactly when that text is
      not empty and has no line break at its end. A leading '/' is harmless here. */
  lemma PrivateFidelity(sender: string, target: string, text: string)
    requires ValidNickname(sender) && ValidNickname(target)
    ensures PrivateDelivery(sender, target, text) == Some((Priv(sender, text), PrivSent(target, text)))
       <==> text != "" && !EndsInLineBreak(text)
  {
    var kept := StripLineEnd(text);
    ValidNicknameIsSpaceFree(sender);
    ValidNicknameIsSpaceFree(target);
    CommandParses("/msg", target, text);
    StripIsIdentity(text);
    SplitField(target, kept);
    PrivParses(sender, kept);
    PrivSentParses(target, kept);
  }

  lemma {:induction false} StripSuffix(head: string, text: string)
    requires head != "" && !LineBreak(head[|head| - 1])
    ensures StripLineEnd(head + text) == head + StripLineEnd(text)
  {
    var s := head + text;
    if EndsInLineBreak(text) {
      assert s[..|s| - 1] == head + text[..|text| - 1];
      StripSuffix(head, text[..|text| - 1]);
    } else if text == "" {
      assert s == head;
    }
  }

  /** A nickname without white space reaches the server's check unchanged, and passes it exactly when it is valid. */
  lemma NickFidelity(nick: string)
    requires forall i :: 0 <= i < |nick| ==> !Whitespace(nick[i])
    ensures ParseLine(FormatNickCommand(nick)) == SetNick(nick)
    ensures ParseNickArgs(nick) == NickAccepted(nick) <==> ValidNickname(nick)
  {
    NickCommandParses(nick);
    WholeToken(nick);
    assert nick[..|nick|] == nick && nick[|nick|..] == "";
  }

  lemma NickCommandParses(nick: string)
    requires forall i :: 0 <= i < |nick| ==> !Whitespace(nick[i])
    ensures ParseLine(FormatNickCommand(nick)) == SetNick(nick)
  {
    StripSuffix("/nick ", nick);
    SplitField("/nick", nick);
    assert FormatNickCommand(nick) == "/nick" + " " + nick;
  }

  /** Whatever the arguments, only a valid nickname ever reaches the client table. */
  lemma AcceptedNicknameIsValid(args: string)
    ensures ParseNickArgs(args).NickAccepted? ==> ValidNickname(ParseNickArgs(args).nickname)
  {
  }

  /** A chat line is relayed whatever the sender's nickname exactly when it is at most max - 29 bytes long;
      a longer one is dropped without a word for the longest nicknames. */
  lemma RelayFits(line: string, max: nat)
    ensures (forall nick :: ValidNickname(nick) ==> |MsgLine(nick, line)| <= max) <==> |line| + 29 <= max
  {
    var longest := seq(MAX_NICKNAME_LENGTH, i => 'x');
    assert ValidNickname(longest);
    assert |MsgLine(longest, line)| == |line| + 29;
  }

  /** For an accepted /msg line: the relay fits unless the sender's name is longer than the target's by more
      than the spare room, while the confirmation needs five bytes more than the command itself. */
  lemma PrivateRelaySizes(sender: string, target: string, text: string, max: nat)
    requires |FormatMsgCommand(target, text)| <= max
    ensures |PrivLine(sender, text)| <= max <==> |sender| - |target| <= max - |FormatMsgCommand(target, text)|
    ensures |PrivSentLine(target, text)| <= max <==> |FormatMsgCommand(target, text)| + 5 <= max
  {
  }
}
