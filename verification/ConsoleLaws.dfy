// What the console does with each message, in terms of what was typed and what was
// registered before: the line, the table, and every message it sends.
module ConsoleLaws {
  import opened Rtx
  import opened Console

  // The text of s up to its first NUL. A string that fills the 64 characters without a
  // NUL is copied beyond them.
  ghost predicate TextOf(c: Copied, s: string) {
    match c
    case Text(t) => |t| < KCD_BUFFER_SIZE && t <= s && '\0' !in t && (|t| < |s| ==> s[|t|] == '\0')
    case Overrun => |s| >= KCD_BUFFER_SIZE && forall i | 0 <= i < KCD_BUFFER_SIZE :: s[i] != '\0'
  }

  // The line begins with the command, and there it ends or a space or NUL follows.
  predicate Names(line: string, text: string) {
    && text <= line && |text| < KCD_BUFFER_SIZE
    && (|text| == |line| || line[|text|] == ' ' || line[|text|] == '\0')
  }

  // Command i is the first one that the open line of the input names.
  ghost predicate Calls(cs: string, table: seq<Command>, j: nat, i: nat) {
    && Opens(cs, j) && i < |table| && Names(cs[j..], table[i].text)
    && forall k | 0 <= k < i :: !Names(cs[j..], table[k].text)
  }

  lemma CopyMeans(s: string)
    requires Ends(s) || |s| >= KCD_BUFFER_SIZE
    ensures TextOf(Copy(s), s)
  {
    hide UpToNul;
    if Ends(s) {
      FullText(s);
    }
  }

  lemma LineText(line: string)
    ensures TextOf(Copy(Padded(line)), line)
  {
    hide UpToNul;
    CopyOfPadded(line);
    if Ends(line) {
      FullText(line);
    }
  }

  lemma Holds(s: string, i: nat)
    ensures i < |s| ==> s[i] in s
  {
  }

  lemma MatchMeans(text: string, line: string)
    requires '\0' !in text
    ensures Matches(text, Padded(line)) <==> Names(line, text)
  {
    var b := Padded(line);
    if Matches(text, b) {
      Holds(text, |line|);
      assert forall k | 0 <= k < |text| :: text[k] == b[k] && b[k] == line[k];
      assert text == line[..|text|];
    }
    if Names(line, text) {
      assert forall k | 0 <= k < |text| :: text[k] == line[k] && line[k] == b[k];
      assert text == b[..|text|];
    }
  }

  lemma {:induction false} TableIsProper(msgs: seq<Incoming>)
    requires Sized(msgs)
    ensures forall c | c in CommandsOf(msgs) :: '\0' !in c.text
  {
    hide Copy, UpToNul;
    if msgs != [] {
      TableIsProper(msgs[..|msgs| - 1]);
      TextIsProper(msgs[|msgs| - 1].msg);
    }
  }

  lemma TextIsProper(s: string)
    ensures Copy(s).Text? ==> '\0' !in Copy(s).text
  {
  }

  lemma OneMore(msgs: seq<Incoming>, m: Incoming)
    requires Sized(msgs) && |m.msg| == KCD_BUFFER_SIZE
    ensures Sized(msgs + [m]) && (msgs + [m])[..|msgs|] == msgs && (msgs + [m])[|msgs|] == m
  {
  }

  // A registration: a string with a percent sign in front and an end joins the table
  // with its sender. Nothing else changes and nothing is sent.
  lemma RegisterLaw(msgs: seq<Incoming>, m: Incoming)
    requires Sized(msgs) && |m.msg| == KCD_BUFFER_SIZE && m.kind == TYPE_REGISTER_CMD
    ensures var (line, table) := Served([CLEAR], msgs);
      var (line', table', out) := Serve(line, table, m.kind, m.tx, m.msg);
      && Sized(msgs + [m]) && Served([CLEAR], msgs + [m]) == (line', table')
      && CharsOf(msgs + [m]) == CharsOf(msgs) && line' == line && out == []
      && (m.msg[0] != '%' || TextOf(Overrun, m.msg) ==> table' == table)
      && (m.msg[0] == '%' ==> forall t | TextOf(Text(t), m.msg) :: table' == table + [Command(t, m.tx)])
  {
    hide UpToNul;
    OneMore(msgs, m);
    CopyMeans(m.msg);
    forall t | TextOf(Text(t), m.msg) ensures Copy(m.msg) == Text(t) {
      assert m.msg[|t|] == '\0' && forall k | 0 <= k < |t| :: m.msg[k] == t[k] && t[k] in t;
      TextEnds(m.msg, |t|);
      assert t == m.msg[..|t|];
    }
  }

  // A message with "clr" behind its first character: a form feed to the screen, and
  // nothing changes.
  lemma ClearLaw(msgs: seq<Incoming>, m: Incoming)
    requires Sized(msgs) && |m.msg| == KCD_BUFFER_SIZE && m.kind != TYPE_REGISTER_CMD && m.msg[1..4] == "clr"
    ensures var (line, table) := Served([CLEAR], msgs);
      var (line', table', out) := Serve(line, table, m.kind, m.tx, m.msg);
      && Sized(msgs + [m]) && Served([CLEAR], msgs + [m]) == (line', table')
      && CharsOf(msgs + [m]) == CharsOf(msgs) && line' == line && table' == table
      && out == [Mail(CRT_PID, Text(FORM_FEED))]
  {
    OneMore(msgs, m);
    assert m.msg[1] == m.msg[1..4][0] && m.msg[2] == m.msg[1..4][1] && m.msg[3] == m.msg[1..4][2];
  }

  // Any other message is a character: it goes on to the screen, a return with a newline
  // behind it, and joins the input. A return that closes a line sends the line to the
  // owner of the first command the line names, and nothing else sends more than the echo.
  lemma CharacterLaw(msgs: seq<Incoming>, m: Incoming)
    requires Sized(msgs) && |m.msg| == KCD_BUFFER_SIZE && m.kind != TYPE_REGISTER_CMD && m.msg[1..4] != "clr"
    ensures var (line, table) := Served([CLEAR], msgs);
      var (line', table', out) := Serve(line, table, m.kind, m.tx, m.msg);
      var cs, c := CharsOf(msgs), m.msg[0];
      && Sized(msgs + [m]) && Served([CLEAR], msgs + [m]) == (line', table')
      && CharsOf(msgs + [m]) == cs + [c] && line' == Typed(cs + [c]) && table' == table
      && 1 <= |out| <= 2 && out[0].to == CRT_PID
      && TextOf(out[0].text, if c == '\r' then m.msg[1 := '\n'] else m.msg)
      && (|out| == 2 ==> c == '\r' && exists j: nat, i: nat :: Calls(cs, table, j, i))
      && (c == '\r' ==> forall j: nat, i: nat | Calls(cs, table, j, i) ::
            |out| == 2 && out[1].to == table[i].pid && TextOf(out[1].text, cs[j..]))
  {
    hide Opens, Type, Typed, Matches, Copy, TextOf, Names, Earliest, UpToNul, Padded;
    OneMore(msgs, m);
    NotClear(m.msg);
    var cs, c := CharsOf(msgs), m.msg[0];
    ServedMeans([CLEAR], msgs);
    ServedMeans([CLEAR], msgs + [m]);
    CopyMeans(Echo(m.msg));
    if c == '\r' {
      LineSent(msgs);
    }
  }

  lemma NotClear(msg: string)
    requires |msg| == KCD_BUFFER_SIZE
    ensures Clears(msg) <==> msg[1..4] == "clr"
  {
    assert msg[1] == msg[1..4][0] && msg[2] == msg[1..4][1] && msg[3] == msg[1..4][2];
  }

  // What a return sends besides the echo.
  lemma LineSent(msgs: seq<Incoming>)
    requires Sized(msgs)
    ensures var (line, table) := Served([CLEAR], msgs);
      var sent := if line.buffer[0] == '%' then Answer(table, line.buffer) else None;
      && (sent.Some? ==> exists j: nat, i: nat :: Calls(CharsOf(msgs), table, j, i))
      && forall j: nat, i: nat | Calls(CharsOf(msgs), table, j, i) ::
           sent.Some? && sent.value.0 == table[i].pid && TextOf(sent.value.1, CharsOf(msgs)[j..])
  {
    hide Type, Typed, Matches, Copy, TextOf, Names, UpToNul, Padded, CommandsOf;
    ServedMeans([CLEAR], msgs);
    TableIsProper(msgs);
    var cs := CharsOf(msgs);
    var (line, table) := Served([CLEAR], msgs);
    BufferMeans(cs);
    if j: nat :| Opens(cs, j) {
      HoldsAt(cs, j);
      FirstIs(cs[j..]);
      LineText(cs[j..]);
      forall k | 0 <= k < |table| ensures Matches(table[k].text, line.buffer) <==> Names(cs[j..], table[k].text) {
        MatchMeans(table[k].text, cs[j..]);
      }
      OnlyOne(cs, j);
      if Earliest(table, line.buffer).Some? {
        var i: nat :|
          && i < |table| && Matches(table[i].text, line.buffer) && Earliest(table, line.buffer).value == table[i].pid
          && forall k | 0 <= k < i :: !Matches(table[k].text, line.buffer);
        assert Calls(cs, table, j, i);
        FirstCall(cs, table, j, i);
      }
    } else {
      assert forall j: nat, i: nat :: !Calls(cs, table, j, i);
    }
  }

  lemma FirstCall(cs: string, table: seq<Command>, j: nat, i: nat)
    requires Calls(cs, table, j, i)
    ensures forall k: nat | Calls(cs, table, j, k) :: k == i
  {
    forall k: nat | Calls(cs, table, j, k) ensures k == i {
      assert !(k < i) && !(i < k);
    }
  }

  lemma OnlyOne(cs: string, j: nat)
    requires Opens(cs, j)
    ensures forall i | Opens(cs, i) :: i == j
  {
  }
}
