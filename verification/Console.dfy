// kcd.c: the console's line buffer and its table of registered commands.
module Console {
  import opened Rtx

  const KCD_BUFFER_SIZE: nat := 64

  // ---------- the line buffer ----------

  datatype Line = Line(buffer: string, size: nat)

  function Blank(): string {
    seq(KCD_BUFFER_SIZE, _ => '\0')
  }

  // The first 64 characters of s, filled up with NULs.
  function Padded(s: string): (b: string)
    ensures |b| == KCD_BUFFER_SIZE
  {
    seq(KCD_BUFFER_SIZE, i requires i >= 0 => if i < |s| then s[i] else '\0')
  }

  function Min(a: nat, b: nat): nat {
    if a < b then a else b
  }

  // One character: a percent sign opens a line, a return closes it.
  function Type(line: Line, c: char): Line
    requires |line.buffer| == KCD_BUFFER_SIZE
  {
    if c == '%' then Line(Blank()[0 := '%'], 1)
    else if c == '\r' then (if line.buffer[0] == '%' then Line(Blank(), 0) else line)
    else if line.size < KCD_BUFFER_SIZE && line.buffer[0] == '%' then Line(line.buffer[line.size := c], line.size + 1)
    else line
  }

  function Typed(cs: string): (line: Line)
    ensures |line.buffer| == KCD_BUFFER_SIZE
  {
    if cs == [] then Line(Blank(), 0) else Type(Typed(cs[..|cs| - 1]), cs[|cs| - 1])
  }

  // Position j opens the line that is being typed.
  predicate Opens(cs: string, j: int) {
    0 <= j < |cs| && cs[j] == '%' && forall k | j < k < |cs| :: cs[k] != '%' && cs[k] != '\r'
  }

  // The buffer holds the line since the last percent sign that no return has closed,
  // cut to 64 characters, and nothing if there is none.
  ghost predicate HoldsLine(cs: string) {
    && (forall j | Opens(cs, j) :: Typed(cs) == Line(Padded(cs[j..]), Min(|cs| - j, KCD_BUFFER_SIZE)))
    && ((forall j :: !Opens(cs, j)) ==> Typed(cs) == Line(Blank(), 0))
  }

  // After any input.
  lemma {:induction false} BufferMeans(cs: string)
    ensures HoldsLine(cs)
  {
    if cs != [] {
      var front, c := cs[..|cs| - 1], cs[|cs| - 1];
      BufferMeans(front);
      assert cs == front + [c];
      forall j | Opens(cs, j)
        ensures Typed(cs) == Line(Padded(cs[j..]), Min(|cs| - j, KCD_BUFFER_SIZE))
      {
        OpenLine(front, c, j);
      }
      if forall j :: !Opens(cs, j) {
        NoOpenLine(front, c);
      }
    }
  }

  lemma TypedMore(front: string, c: char)
    ensures Typed(front + [c]) == Type(Typed(front), c)
  {
    assert (front + [c])[..|front|] == front;
  }

  lemma OpenLine(front: string, c: char, j: int)
    requires HoldsLine(front) && Opens(front + [c], j)
    ensures Typed(front + [c]) == Line(Padded((front + [c])[j..]), Min(|front| + 1 - j, KCD_BUFFER_SIZE))
  {
    hide Padded, Type, Typed, Min, Opens, HoldsLine;
    var cs := front + [c];
    TypedMore(front, c);
    OpensBefore(front, c, j);
    if j < |front| {
      HoldsAt(front, j);
      assert cs[j..] == front[j..] + [c];
      TypeMore(front[j..], c);
    } else {
      assert cs[j..] == [c];
      assert Min(1, KCD_BUFFER_SIZE) == 1 by { One(); }
      TypeFirst(Typed(front));
    }
  }

  lemma HoldsAt(cs: string, j: int)
    requires HoldsLine(cs) && Opens(cs, j)
    ensures Typed(cs) == Line(Padded(cs[j..]), Min(|cs| - j, KCD_BUFFER_SIZE))
  {
  }

  lemma One()
    ensures Min(1, KCD_BUFFER_SIZE) == 1
  {
  }

  lemma OpensBefore(front: string, c: char, j: int)
    requires Opens(front + [c], j)
    ensures 0 <= j <= |front|
    ensures j < |front| ==> Opens(front, j) && front[j] == '%' && c != '%' && c != '\r'
    ensures j == |front| ==> c == '%'
  {
    var cs := front + [c];
    assert cs[|front|] == c && forall k | 0 <= k < |front| :: cs[k] == front[k];
  }

  lemma NoOpenLine(front: string, c: char)
    requires HoldsLine(front) && forall j :: !Opens(front + [c], j)
    ensures Typed(front + [c]) == Line(Blank(), 0)
  {
    hide Typed, Padded;
    var cs := front + [c];
    TypedMore(front, c);
    assert !Opens(cs, |front|) && cs[|front|] == c;
    if j :| Opens(front, j) {
      assert front[j] == cs[j] && forall k | 0 <= k < |front| :: front[k] == cs[k];
      assert !Opens(cs, j);
      FirstIs(front[j..]);
    }
  }

  lemma FirstIs(s: string)
    requires s != []
    ensures Padded(s)[0] == s[0]
  {
  }

  lemma TypeFirst(line: Line)
    requires |line.buffer| == KCD_BUFFER_SIZE
    ensures Type(line, '%') == Line(Padded(['%']), 1)
  {
    assert Padded(['%']) == Blank()[0 := '%'];
  }

  // An open line grows by a character that is neither a percent sign nor a return.
  lemma TypeMore(s: string, c: char)
    requires s != [] && s[0] == '%' && c != '%' && c != '\r'
    ensures Type(Line(Padded(s), Min(|s|, KCD_BUFFER_SIZE)), c)
         == Line(Padded(s + [c]), Min(|s| + 1, KCD_BUFFER_SIZE))
  {
    if |s| < KCD_BUFFER_SIZE {
      assert Padded(s)[|s| := c] == Padded(s + [c]);
    } else {
      assert Padded(s) == Padded(s + [c]);
    }
  }

  // ---------- copying strings ----------

  // A C string: the characters up to the first NUL.
  function UpToNul(s: string): (t: string)
    ensures t <= s && '\0' !in t && (|t| < |s| ==> s[|t|] == '\0')
  {
    if s == [] || s[0] == '\0' then [] else
      var t := UpToNul(s[1..]);
      assert s == [s[0]] + s[1..];
      [s[0]] + t
  }

  // What str_copy leaves in a zeroed buffer of 64 characters. Without a NUL among the
  // first 64 characters of the source it runs out of its buffers.
  datatype Copied = Text(text: string) | Overrun

  predicate Ends(s: string) {
    exists i :: 0 <= i < |s| && i < KCD_BUFFER_SIZE && s[i] == '\0'
  }

  function Copy(s: string): Copied {
    if Ends(s) then Text(UpToNul(s)) else Overrun
  }

  // The text of a typed line arrives whole exactly when the line is shorter than the
  // buffer or holds a NUL within it; any longer line is copied beyond the buffers.
  lemma CopyOfLine(cs: string, j: int)
    requires Opens(cs, j)
    ensures var line := cs[j..];
      Copy(Typed(cs).buffer) == if |line| < KCD_BUFFER_SIZE || Ends(line) then Text(UpToNul(line)) else Overrun
  {
    BufferMeans(cs);
    HoldsAt(cs, j);
    var line := cs[j..];
    CopyOfPadded(line);
  }

  // A line of 64 characters that begins with a registered command and has no NUL: it is
  // looked up with success, but its text does not fit.
  lemma LongLine(cs: string, pid: Pid)
    requires |cs| == KCD_BUFFER_SIZE && cs[..3] == "%a " && forall i | 3 <= i < |cs| :: 'a' <= cs[i] <= 'z'
    ensures Opens(cs, 0) && Copy(Typed(cs).buffer) == Overrun
    ensures Earliest([Command("%a", pid)], Typed(cs).buffer) == Some(pid)
  {
    assert cs[0] == cs[..3][0] && cs[1] == cs[..3][1] && cs[2] == cs[..3][2];
    assert Opens(cs, 0) && cs[0..] == cs && !Ends(cs);
    CopyOfLine(cs, 0);
    BufferMeans(cs);
    HoldsAt(cs, 0);
    assert Typed(cs).buffer == cs;
    FoundHere([Command("%a", pid)], cs, 2);
  }

  lemma CopyOfPadded(s: string)
    ensures Copy(Padded(s)) == if |s| < KCD_BUFFER_SIZE || Ends(s) then Text(UpToNul(s)) else Overrun
  {
    hide UpToNul;
    var b, n := Padded(s), |UpToNul(s)|;
    if n < KCD_BUFFER_SIZE {
      assert b[n] == '\0';
      TextEnds(b, n);
      assert b[..n] == UpToNul(s);
    }
  }

  lemma {:induction false} TextEnds(s: string, i: nat)
    requires i < |s| && s[i] == '\0' && forall k | 0 <= k < i :: s[k] != '\0'
    ensures UpToNul(s) == s[..i]
  {
    if i > 0 {
      TextEnds(s[1..], i - 1);
      assert s[..i] == [s[0]] + s[1..][..i - 1];
    }
  }

  // The NUL comes at the latest right behind the last of `room` characters.
  predicate EndsWithin(s: string, room: nat) {
    exists i :: 0 <= i < |s| && i <= room && s[i] == '\0'
  }

  // str_copy, stopped where the source would leave one of its buffers. The characters
  // behind the copied text stay, and no NUL is written.
  method StrCopy(from: array<char>, to: array<char>) returns (ended: bool)
    requires from != to
    modifies to
    ensures ended <==> EndsWithin(from[..], to.Length)
    ensures ended ==> |UpToNul(from[..])| <= to.Length
    ensures ended ==> to[..] == UpToNul(from[..]) + old(to[..])[|UpToNul(from[..])|..]
  {
    var i := 0;
    while i < from.Length && i < to.Length && from[i] != '\0'
      invariant 0 <= i <= from.Length && i <= to.Length && forall j | 0 <= j < i :: from[j] != '\0'
      invariant forall j | 0 <= j < to.Length :: to[j] == if j < i then from[j] else old(to[j])
    {
      to[i] := from[i];
      i := i + 1;
    }
    ended := i < from.Length && from[i] == '\0';
    if ended {
      TextEnds(from[..], i);
    }
  }

  // The same into zeroed memory of 64 characters.
  lemma IntoZeros(s: string)
    ensures EndsWithin(s, KCD_BUFFER_SIZE) ==>
      && |UpToNul(s)| <= KCD_BUFFER_SIZE && UpToNul(s) + Blank()[|UpToNul(s)|..] == Padded(UpToNul(s))
    ensures Ends(s) <==> EndsWithin(s, KCD_BUFFER_SIZE) && |UpToNul(s)| < KCD_BUFFER_SIZE
    ensures |s| == KCD_BUFFER_SIZE ==> (Ends(s) <==> EndsWithin(s, KCD_BUFFER_SIZE))
  {
    hide UpToNul;
    var n := |UpToNul(s)|;
    if i :| 0 <= i < |s| && i <= KCD_BUFFER_SIZE && s[i] == '\0' {
      assert n <= i by {
        assert UpToNul(s) <= s && '\0' !in UpToNul(s);
        assert forall k | 0 <= k < n :: UpToNul(s)[k] == s[k] && UpToNul(s)[k] in UpToNul(s);
      }
      assert s[n] == '\0';
    }
  }

  // ---------- the table of commands ----------

  datatype Command = Command(text: string, pid: Pid)

  // A string as str_copy and the lookup see it: no NUL inside, room for one behind.
  predicate Proper(text: string) {
    0 < |text| < KCD_BUFFER_SIZE && text[0] == '%' && '\0' !in text
  }

  // The line begins with the command, followed by a space or a NUL.
  predicate Matches(text: string, line: string)
    requires |line| == KCD_BUFFER_SIZE
  {
    |text| < KCD_BUFFER_SIZE && text <= line && (line[|text|] == ' ' || line[|text|] == '\0')
  }

  // The earliest registered command that matches.
  function Earliest(commands: seq<Command>, line: string): (found: Option<Pid>)
    requires |line| == KCD_BUFFER_SIZE
    ensures found == None <==> forall i | 0 <= i < |commands| :: !Matches(commands[i].text, line)
    ensures found.Some? ==> exists i ::
      && 0 <= i < |commands| && found.value == commands[i].pid && Matches(commands[i].text, line)
      && forall j | 0 <= j < i :: !Matches(commands[j].text, line)
  {
    if commands == [] then None
    else if Matches(commands[0].text, line) then Some(commands[0].pid)
    else Earliest(commands[1..], line)
  }

  // The first command matches the line, or differs from it at position i.
  lemma FoundHere(commands: seq<Command>, line: string, i: nat)
    requires |line| == KCD_BUFFER_SIZE && commands != [] && i == |commands[0].text| < KCD_BUFFER_SIZE
    requires commands[0].text[..i] == line[..i] && (line[i] == ' ' || line[i] == '\0')
    ensures Earliest(commands, line) == Some(commands[0].pid)
  {
    assert commands[0].text[..i] == commands[0].text;
  }

  lemma NotHere(commands: seq<Command>, line: string, i: nat)
    requires |line| == KCD_BUFFER_SIZE && commands != [] && i <= |commands[0].text| < KCD_BUFFER_SIZE
    requires if i < |commands[0].text| then line[i] != commands[0].text[i] else line[i] != ' ' && line[i] != '\0'
    ensures Earliest(commands, line) == Earliest(commands[1..], line)
  {
  }

  // What a completed line sends, and to whom.
  function Answer(commands: seq<Command>, line: string): Option<(Pid, Copied)>
    requires |line| == KCD_BUFFER_SIZE
  {
    if Earliest(commands, line).Some? then Some((Earliest(commands, line).value, Copy(line))) else None
  }

  function Registers(text: string): Option<Copied>
    requires text != []
  {
    if text[0] == '%' then Some(Copy(text)) else None
  }

  function WithCommand(commands: seq<Command>, copied: Option<Copied>, pid: Pid): seq<Command> {
    if copied.Some? && copied.value.Text? then commands + [Command(copied.value.text, pid)] else commands
  }

  // ---------- the messages of the console ----------

  const TYPE_REGISTER_CMD: int := 3
  const KCD_PID: Pid := 10
  const CRT_PID: Pid := 11
  const CLEAR := Command("%clr", KCD_PID)
  const FORM_FEED: string := "\U{000C}"

  datatype Mail = Mail(to: Pid, text: Copied)
  datatype Incoming = Incoming(kind: int, tx: Pid, msg: string)

  // A return is shown with a newline behind it.
  function Echo(msg: string): (m: string)
    requires |msg| == KCD_BUFFER_SIZE
    ensures |m| == |msg|
  {
    if msg[0] == '\r' then msg[1 := '\n'] else msg
  }

  predicate Clears(msg: string)
    requires |msg| == KCD_BUFFER_SIZE
  {
    msg[1] == 'c' && msg[2] == 'l' && msg[3] == 'r'
  }

  // One turn of kcd(): the line, the commands, and the messages it sends.
  function Serve(line: Line, commands: seq<Command>, kind: int, tx: Pid, msg: string): (Line, seq<Command>, seq<Mail>)
    requires |line.buffer| == KCD_BUFFER_SIZE == |msg|
  {
    if kind == TYPE_REGISTER_CMD then (line, WithCommand(commands, Registers(msg), tx), [])
    else if Clears(msg) then (line, commands, [Mail(CRT_PID, Text(FORM_FEED))])
    else
      var sent := if msg[0] == '\r' && line.buffer[0] == '%' then Answer(commands, line.buffer) else None;
      (Type(line, msg[0]), commands,
       [Mail(CRT_PID, Copy(Echo(msg)))] + if sent.Some? then [Mail(sent.value.0, sent.value.1)] else [])
  }

  ghost predicate Sized(msgs: seq<Incoming>) {
    forall i | 0 <= i < |msgs| :: |msgs[i].msg| == KCD_BUFFER_SIZE
  }

  // The line and the commands after a series of messages, from an empty line.
  ghost function Served(commands: seq<Command>, msgs: seq<Incoming>): (r: (Line, seq<Command>))
    requires Sized(msgs)
    ensures |r.0.buffer| == KCD_BUFFER_SIZE
  {
    if msgs == [] then (Line(Blank(), 0), commands) else
      var front, m := msgs[..|msgs| - 1], msgs[|msgs| - 1];
      var (line, known) := Served(commands, front);
      var (l, c, _) := Serve(line, known, m.kind, m.tx, m.msg);
      (l, c)
  }

  predicate IsChar(m: Incoming)
    requires |m.msg| == KCD_BUFFER_SIZE
  {
    m.kind != TYPE_REGISTER_CMD && !Clears(m.msg)
  }

  // The characters typed in a series of messages.
  ghost function CharsOf(msgs: seq<Incoming>): string
    requires Sized(msgs)
  {
    if msgs == [] then [] else
      var m := msgs[|msgs| - 1];
      CharsOf(msgs[..|msgs| - 1]) + if IsChar(m) then [m.msg[0]] else []
  }

  // The registrations in a series of messages, in order.
  ghost function CommandsOf(msgs: seq<Incoming>): seq<Command>
    requires Sized(msgs)
  {
    if msgs == [] then [] else
      var m := msgs[|msgs| - 1];
      CommandsOf(msgs[..|msgs| - 1])
      + if m.kind == TYPE_REGISTER_CMD then WithCommand([], Registers(m.msg), m.tx) else []
  }

  // Characters, registrations and clear commands may interleave: the line is what was
  // typed, and the table is what was registered.
  lemma {:induction false} ServedMeans(commands: seq<Command>, msgs: seq<Incoming>)
    requires Sized(msgs)
    ensures Served(commands, msgs) == (Typed(CharsOf(msgs)), commands + CommandsOf(msgs))
  {
    hide Type, Copy, Answer, Echo;
    if msgs != [] {
      var front, m := msgs[..|msgs| - 1], msgs[|msgs| - 1];
      ServedMeans(commands, front);
      if IsChar(m) {
        TypedMore(CharsOf(front), m.msg[0]);
      } else {
        assert CharsOf(front) + [] == CharsOf(front);
      }
      AddLast(commands, CommandsOf(front), Registers(m.msg), m.tx);
    } else {
      assert commands + [] == commands;
    }
  }

  lemma AddLast(a: seq<Command>, b: seq<Command>, copied: Option<Copied>, tx: Pid)
    ensures WithCommand(a + b, copied, tx) == a + (b + WithCommand([], copied, tx))
    ensures a + (b + []) == a + b
  {
  }

  // The clear command, registered first, comes back to the console itself, and its
  // return clears the screen and changes nothing else.
  lemma ClearScreen(line: Line, commands: seq<Command>, tx: Pid, msg: string, line': Line, back: string)
    requires |line.buffer| == KCD_BUFFER_SIZE == |msg| == |back| == |line'.buffer|
    requires commands != [] && commands[0] == CLEAR && Matches("%clr", line.buffer) && Ends(line.buffer)
    requires msg[0] == '\r' && !Clears(msg)
    requires Copy(back) == Copy(line.buffer)
    ensures Serve(line, commands, 0, tx, msg).2 == [Mail(CRT_PID, Copy(Echo(msg))), Mail(KCD_PID, Copy(back))]
    ensures Serve(line', commands, 0, KCD_PID, back) == (line', commands, [Mail(CRT_PID, Text(FORM_FEED))])
  {
    hide Echo, Type;
    var b, t := line.buffer, UpToNul(line.buffer);
    assert b[..4] == "%clr" && b[0] == b[..4][0] && b[1] == b[..4][1] && b[2] == b[..4][2] && b[3] == b[..4][3];
    Begins(b, 4);
    assert t <= back && t[..4] == b[..4];
    assert back[1] == t[1] && back[2] == t[2] && back[3] == t[3];
  }

  lemma Begins(s: string, n: nat)
    requires n <= |s| && forall i | 0 <= i < n :: s[i] != '\0'
    ensures n <= |UpToNul(s)| && UpToNul(s)[..n] == s[..n]
  {
    hide UpToNul;
    var t := UpToNul(s);
    assert |t| < |s| ==> s[|t|] == '\0';
  }

  // The registered clear command as str_copy reads it.
  lemma ClearText()
    ensures Registers("%clr\0") == Some(Text("%clr"))
  {
    var s := "%clr\0";
    assert s[4] == '\0' && Ends(s);
    TextEnds(s, 4);
    assert s[..4] == "%clr";
  }

  lemma FullText(s: string)
    requires Ends(s)
    ensures |UpToNul(s)| < KCD_BUFFER_SIZE
  {
    IntoZeros(s);
  }

  class RegCmd {
    const pid: Pid
    const cmd: array<char>
    var next: RegCmd?

    constructor (pid: Pid, cmd: array<char>)
      ensures this.pid == pid && this.cmd == cmd && next == null
    {
      this.pid, this.cmd, this.next := pid, cmd, null;
    }
  }

  class Kcd {
    const kcdBuffer: array<char>
    var kbufSize: nat
    var cmdHead: RegCmd?
    var cmdTail: RegCmd?

    // The registered commands and their list nodes.
    ghost var commands: seq<Command>
    ghost var nodes: seq<RegCmd>

    // Node i of the list stores command i.
    ghost predicate Stores(i: nat)
      requires i < |nodes| == |commands|
      reads this, nodes, set n | n in nodes :: n.cmd
    {
      && nodes[i].pid == commands[i].pid && Proper(commands[i].text)
      && nodes[i].next == (if i + 1 < |nodes| then nodes[i + 1] else null)
      && nodes[i].cmd.Length == KCD_BUFFER_SIZE && nodes[i].cmd != kcdBuffer
      && nodes[i].cmd[..] == Padded(commands[i].text)
    }

    ghost predicate Table()
      reads this, nodes, set n | n in nodes :: n.cmd
    {
      && |nodes| == |commands|
      && cmdHead == (if nodes == [] then null else nodes[0])
      && cmdTail == (if nodes == [] then null else nodes[|nodes| - 1])
      && (forall i, j | 0 <= i < j < |nodes| :: nodes[i] != nodes[j])
      && (forall i: nat | i < |nodes| :: Stores(i))
    }

    ghost predicate Valid()
      reads this, kcdBuffer, nodes, set n | n in nodes :: n.cmd
    {
      kcdBuffer.Length == KCD_BUFFER_SIZE && Table()
    }

    ghost function View(): Line
      reads this, kcdBuffer
    {
      Line(kcdBuffer[..], kbufSize)
    }

    // The start of kcd(): an empty line and no commands.
    constructor ()
      ensures Valid() && View() == Typed([]) && commands == []
    {
      var buffer := new char[KCD_BUFFER_SIZE];
      kcdBuffer := buffer;
      kbufSize := 0;
      cmdHead, cmdTail := null, null;
      commands, nodes := [], [];
      new;
      ResetBuffer(buffer);
      assert kcdBuffer[..] == Blank();
    }

    // The lookup loop: a single loop walks the commands and, inside a command, the
    // characters, starting over at position 1 for the next command.
    method Lookup() returns (found: Option<Pid>)
      requires Valid() && kcdBuffer[0] == '%'
      ensures found == Earliest(commands, kcdBuffer[..])
    {
      hide Earliest, Stores, Proper, Matches, Padded;
      var current := cmdHead;
      var i := 1;
      ghost var c := 0;
      ghost var line := kcdBuffer[..];
      forall m: nat | m < |nodes|
        ensures |commands[m].text| > 0 && commands[m].text[..1] == line[..1]
      {
        SameStart(m);
      }
      while current != null
        invariant 0 <= c <= |commands| && 1 <= i < KCD_BUFFER_SIZE
        invariant current == if c < |nodes| then nodes[c] else null
        invariant Earliest(commands, line) == Earliest(commands[c..], line)
        invariant c < |commands| ==> i <= |commands[c].text| && commands[c].text[..i] == line[..i]
        decreases |commands| - c, if c < |commands| then |commands[c].text| - i else 0
      {
        StoredAt(c, i);
        if (kcdBuffer[i] == ' ' || kcdBuffer[i] == '\0') && current.cmd[i] == '\0' {
          FoundHere(commands[c..], line, i);
          return Some(current.pid);
        } else if kcdBuffer[i] == current.cmd[i] {
          assert line[..i + 1] == line[..i] + [line[i]];
          i := i + 1;
        } else {
          NotHere(commands[c..], line, i);
          assert commands[c..][1..] == commands[c + 1..];
          i := 1;
          current := current.next;
          c := c + 1;
        }
      }
      return None;
    }

    lemma SameStart(m: nat)
      requires Valid() && m < |nodes| && kcdBuffer[0] == '%'
      ensures |commands[m].text| > 0 && commands[m].text[..1] == kcdBuffer[..][..1]
    {
      assert Stores(m);
    }

    // Character i of command c, as its node stores it.
    lemma StoredAt(c: nat, i: nat)
      requires Valid() && c < |commands| && i <= |commands[c].text| && i < KCD_BUFFER_SIZE
      ensures nodes[c].cmd.Length == KCD_BUFFER_SIZE && nodes[c].pid == commands[c].pid
      ensures nodes[c].next == (if c + 1 < |nodes| then nodes[c + 1] else null)
      ensures |commands[c].text| < KCD_BUFFER_SIZE
      ensures nodes[c].cmd[i] == '\0' <==> i == |commands[c].text|
      ensures i < |commands[c].text| ==> nodes[c].cmd[i] == commands[c].text[i]
    {
      assert Stores(c);
      assert nodes[c].cmd[..][i] == Padded(commands[c].text)[i];
      assert i < |commands[c].text| ==> commands[c].text[i] in commands[c].text;
    }

    // One character of input; a completed line is looked up and, if a command
    // matches, its text is sent to the process that registered it.
    method Input(c: char) returns (sent: Option<(Pid, Copied)>)
      requires Valid()
      modifies this`kbufSize, kcdBuffer
      ensures Valid() && View() == Type(old(View()), c)
      ensures sent == if c == '\r' && old(kcdBuffer[0]) == '%' then Answer(commands, old(kcdBuffer[..])) else None
    {
      hide Earliest, Copy;
      sent := None;
      if c == '%' {
        ResetBuffer(kcdBuffer);
        kcdBuffer[0] := c;
        kbufSize := 1;
      } else if c == '\r' {
        if kcdBuffer[0] == '%' {
          sent := SendLine();
          ResetBuffer(kcdBuffer);
          kbufSize := 0;
        }
      } else {
        if kbufSize >= KCD_BUFFER_SIZE {
          // the rest of an overlong line is ignored
        } else if kcdBuffer[0] == '%' {
          kcdBuffer[kbufSize] := c;
          kbufSize := kbufSize + 1;
        }
      }
      forall i: nat | i < |nodes| ensures Stores(i) {
        assert old(Stores(i));
      }
    }

    // The completed line, copied into a fresh message.
    method SendLine() returns (sent: Option<(Pid, Copied)>)
      requires Valid() && kcdBuffer[0] == '%'
      ensures sent == Answer(commands, kcdBuffer[..])
    {
      hide Stores, Earliest;
      var found := Lookup();
      if found.None? {
        return None;
      }
      var msg := new char[KCD_BUFFER_SIZE];
      ResetBuffer(msg);
      var ended := StrCopy(kcdBuffer, msg);
      IntoZeros(kcdBuffer[..]);
      var text := Overrun;
      if ended {
        text := ReadText(msg, UpToNul(kcdBuffer[..]));
      }
      sent := Some((found.value, text));
    }

    // register_command. A string without a leading percent sign is ignored, and one
    // without a NUL among its first 64 characters does not fit into the command.
    method RegisterCommand(cmdStr: array<char>, pid: Pid) returns (copied: Option<Copied>)
      requires Valid() && cmdStr.Length > 0
      modifies this, nodes
      ensures Valid() && kbufSize == old(kbufSize)
      ensures copied == Registers(cmdStr[..])
      ensures commands == WithCommand(old(commands), copied, pid)
    {
      hide Stores, Proper;
      if cmdStr[0] != '%' {
        return None;
      }
      var cmd := new char[KCD_BUFFER_SIZE];
      ResetBuffer(cmd);
      var ended := StrCopy(cmdStr, cmd);
      IntoZeros(cmdStr[..]);
      if !ended || cmd[KCD_BUFFER_SIZE - 1] != '\0' {
        assert ended ==> cmd[KCD_BUFFER_SIZE - 1] == cmd[..][KCD_BUFFER_SIZE - 1];
        return Some(Overrun);
      }
      assert cmd[KCD_BUFFER_SIZE - 1] == cmd[..][KCD_BUFFER_SIZE - 1];
      FullText(cmdStr[..]);
      ProperText(cmdStr[..]);
      AddNode(cmd, pid, UpToNul(cmdStr[..]));
      copied := Some(Text(UpToNul(cmdStr[..])));
    }

    // The start of kcd(): the command that clears the screen is the first one.
    method Begin()
      requires Valid() && commands == []
      modifies this, nodes
      ensures Valid() && commands == [CLEAR] && kbufSize == old(kbufSize)
    {
      var text := new char[5]['%', 'c', 'l', 'r', '\0'];
      assert text[..] == "%clr\0";
      ClearText();
      var _ := RegisterCommand(text, KCD_PID);
    }

    // A return goes to the screen with a newline behind it.
    method AddNewline(msg: array<char>)
      requires Valid() && msg.Length == KCD_BUFFER_SIZE && msg != kcdBuffer && forall n | n in nodes :: n.cmd != msg
      modifies msg
      ensures Valid() && View() == old(View()) && msg[..] == Echo(old(msg[..]))
    {
      if msg[0] == '\r' {
        msg[1] := '\n';
      }
      forall i: nat | i < |nodes| ensures Stores(i) {
        assert old(Stores(i));
      }
    }

    // One message to the console: a registration, the clear command, or a character.
    // The block of a character message goes on to the screen.
    method Handle(kind: int, tx: Pid, msg: array<char>) returns (out: seq<Mail>)
      requires Valid() && msg.Length == KCD_BUFFER_SIZE && msg != kcdBuffer && forall n | n in nodes :: n.cmd != msg
      modifies this, nodes, kcdBuffer, msg
      ensures Valid() && (View(), commands, out) == Serve(old(View()), old(commands), kind, tx, old(msg[..]))
    {
      hide Stores, Earliest, Type, Copy, Registers;
      if kind == TYPE_REGISTER_CMD {
        var _ := RegisterCommand(msg, tx);
        return [];
      }
      if msg[1] == 'c' && msg[2] == 'l' && msg[3] == 'r' {
        return [Mail(CRT_PID, Text(FORM_FEED))];
      }
      var c := msg[0];
      AddNewline(msg);
      out := [Mail(CRT_PID, Copy(msg[..]))];
      assert out + [] == out && View().buffer[0] == kcdBuffer[0];
      var sent := Input(c);
      if sent.Some? {
        out := out + [Mail(sent.value.0, sent.value.1)];
      }
    }

    // The new command at the end of the list.
    method AddNode(cmd: array<char>, pid: Pid, ghost text: string)
      requires Valid() && Proper(text) && cmd.Length == KCD_BUFFER_SIZE && cmd != kcdBuffer && cmd[..] == Padded(text)
      modifies this`cmdHead, this`cmdTail, this`commands, this`nodes, nodes
      ensures Valid() && commands == old(commands) + [Command(text, pid)]
    {
      var newCmd := new RegCmd(pid, cmd);
      if cmdHead == null {
        cmdHead := newCmd;
        cmdTail := newCmd;
      } else {
        assert cmdTail == nodes[|nodes| - 1] && cmdTail in nodes;
        cmdTail.next := newCmd;
        cmdTail := newCmd;
      }
      commands := commands + [Command(text, pid)];
      nodes := nodes + [newCmd];
      forall i: nat | i < |nodes| ensures Stores(i) {
        assert i < |old(nodes)| ==> old(Stores(i));
      }
    }
  }

  lemma ProperText(s: string)
    requires s != [] && s[0] == '%' && Ends(s)
    ensures Proper(UpToNul(s))
  {
    var i :| 0 <= i < |s| && i < KCD_BUFFER_SIZE && s[i] == '\0';
    assert UpToNul(s) <= s;
  }

  // The message as its receiver reads it: the characters up to the NUL.
  method ReadText(msg: array<char>, ghost text: string) returns (copied: Copied)
    requires msg.Length == KCD_BUFFER_SIZE && |text| < KCD_BUFFER_SIZE && '\0' !in text && msg[..] == Padded(text)
    ensures copied == Text(text)
  {
    assert forall j | 0 <= j < msg.Length :: msg[j] == msg[..][j];
    var t: string := [];
    var i := 0;
    while msg[i] != '\0'
      invariant 0 <= i <= |text| && t == text[..i]
      decreases |text| - i
    {
      t := t + [msg[i]];
      i := i + 1;
    }
    return Text(t);
  }

  // reset_kcd_buffer
  method ResetBuffer(buffer: array<char>)
    requires buffer.Length == KCD_BUFFER_SIZE
    modifies buffer
    ensures buffer[..] == Blank()
  {
    for i := 0 to KCD_BUFFER_SIZE
      invariant forall j | 0 <= j < i :: buffer[j] == '\0'
    {
      buffer[i] := '\0';
    }
  }
}
