/**
 * The serial console (cxa_console.c): a line editor fed one received byte per
 * run-loop tick, and a table of named commands. When a line ends, the first
 * registered command whose name is a prefix of the line runs. The table always
 * begins with the built-in `clear` and `help` commands.
 *
 * Terminal output (echo, prompt, error text, escape codes) is not part of this
 * model; command callbacks that run are recorded in `executed`.
 */
module Console {
  import opened Wrappers
  import opened NumberUtils
  import opened Text
  import opened BoundedArrays

  const HEADER_NUM_COLS: nat := 40
  const COMMAND_BUFFER_LEN_BYTES: nat := 100
  const CR: char := '\r'
  const LF: char := '\n'
  const BACKSPACE: char := 8 as char
  const DEL: char := 127 as char

  /** A cxa_console_command_cb_t function pointer, identified by name. */
  datatype CommandCb = CommandCb(name: string)

  /** commandEntry_t: a command name, its callback and its user variable. */
  datatype CommandEntry = CommandEntry(command: string, cb: CommandCb, userVar: nat)

  const CLEAR_ENTRY := CommandEntry("clear", CommandCb("command_clear"), 0)
  const HELP_ENTRY := CommandEntry("help", CommandCb("command_help"), 0)

  /** `prefix` is a prefix of `s`. */
  predicate StartsWith(s: string, prefix: string)
  {
    |prefix| <= |s| && s[..|prefix|] == prefix
  }

  /** A byte that ends a line. */
  predicate IsLineEnd(b: char)
  {
    b == CR || b == LF
  }

  /** A byte that erases the previous one. */
  predicate IsErase(b: char)
  {
    b == BACKSPACE || b == DEL
  }

  /**
   * The command a completed line runs: the first entry, in registration order,
   * whose name is a prefix of the line.
   */
  function Lookup(entries: seq<CommandEntry>, line: string): (r: Option<nat>)
    ensures r.Some? ==> r.value < |entries| && StartsWith(line, entries[r.value].command)
    ensures r.Some? ==> forall j :: 0 <= j < r.value ==> !StartsWith(line, entries[j].command)
    ensures r.None? ==> forall j :: 0 <= j < |entries| ==> !StartsWith(line, entries[j].command)
  {
    if entries == [] then None
    else
      var r := Lookup(entries[..|entries| - 1], line);
      if r.Some? then r
      else if StartsWith(line, entries[|entries| - 1].command) then Some(|entries| - 1)
      else None
  }

  /** The first matching entry is the one Lookup names. */
  lemma LookupIsFirstMatch(entries: seq<CommandEntry>, line: string, i: nat)
    requires i < |entries| && StartsWith(line, entries[i].command)
    requires forall j :: 0 <= j < i ==> !StartsWith(line, entries[j].command)
    ensures Lookup(entries, line) == Some(i)
  {
  }

  /**
   * With `clear` and `help` registered first, a user command whose name begins
   * with "help" (or "clear") never runs: every line it would match runs the
   * built-in command instead.
   */
  lemma {:induction false} BuiltinsShadow(entries: seq<CommandEntry>, line: string, k: nat)
    requires |entries| >= 2 && entries[0] == CLEAR_ENTRY && entries[1] == HELP_ENTRY
    requires 2 <= k < |entries|
    requires StartsWith(entries[k].command, "help") || StartsWith(entries[k].command, "clear")
    ensures Lookup(entries, line) != Some(k)
  {
    var c := entries[k].command;
    if StartsWith(line, c) {
      if StartsWith(c, "help") {
        assert line[..|"help"|] == c[..|"help"|];
        assert StartsWith(line, entries[1].command);
      } else {
        assert line[..|"clear"|] == c[..|"clear"|];
        assert StartsWith(line, entries[0].command);
      }
    }
  }

  /**
   * The command buffer after one received byte (None: nothing was read): a
   * line end empties it, an erase drops its last byte if there is one, and any
   * other byte is appended, or empties the buffer when it is already full.
   */
  function LineAfter(line: string, rx: Option<char>, capacity: nat): (r: string)
    ensures |line| <= capacity ==> |r| <= capacity
    ensures rx.None? ==> r == line
    ensures rx.Some? && IsLineEnd(rx.value) ==> r == []
    ensures rx.Some? && IsErase(rx.value) ==> r == if line == [] then [] else line[..|line| - 1]
  {
    if rx.None? then line
    else if IsLineEnd(rx.value) then []
    else if IsErase(rx.value) then (if line == [] then [] else line[..|line| - 1])
    else if |line| < capacity then line + [rx.value]
    else []
  }

  /** The commands a received byte runs: at most one, and only when a non-empty line ends. */
  function RunsAfter(entries: seq<CommandEntry>, line: string, rx: Option<char>): (r: seq<CommandEntry>)
    ensures |r| <= 1
    ensures r != [] <==> rx.Some? && IsLineEnd(rx.value) && line != [] && Lookup(entries, line).Some?
    ensures r != [] ==> r[0] == entries[Lookup(entries, line).value] && StartsWith(line, r[0].command)
  {
    if rx.Some? && IsLineEnd(rx.value) && line != [] then
      var m := Lookup(entries, line);
      if m.Some? then [entries[m.value]] else []
    else []
  }

  /** Typing an ordinary byte into a buffer with room and then erasing it restores the line. */
  lemma {:induction false} EraseUndoesAppend(line: string, c: char, capacity: nat)
    requires |line| < capacity && !IsLineEnd(c) && !IsErase(c)
    ensures LineAfter(LineAfter(line, Some(c), capacity), Some(BACKSPACE), capacity) == line
  {
    assert (line + [c])[..|line|] == line;
  }

  /** A buffer that is full is emptied by one more ordinary byte, which is lost. */
  lemma {:induction false} OverflowEmpties(line: string, c: char, capacity: nat)
    requires |line| == capacity && !IsLineEnd(c) && !IsErase(c)
    ensures LineAfter(line, Some(c), capacity) == []
  {
  }

  /**
   * The commands a received byte runs as written: cxa_stringUtils_startsWith is
   * handed the command buffer's storage, which is not NUL-terminated at the
   * line's end, so the match also sees whatever the storage holds beyond the
   * `len` typed bytes.
   */
  function RunsAfterAsWritten(entries: seq<CommandEntry>, storage: string, len: nat, rx: Option<char>): (r: seq<CommandEntry>)
    requires len <= |storage|
    ensures |r| <= 1
    ensures r != [] <==> rx.Some? && IsLineEnd(rx.value) && len > 0 && Lookup(entries, storage).Some?
    ensures r != [] ==> StartsWith(storage, r[0].command)
  {
    if rx.Some? && IsLineEnd(rx.value) && len > 0 then
      var m := Lookup(entries, storage);
      if m.Some? then [entries[m.value]] else []
    else []
  }

  /**
   * After `help` has been typed and run, the storage still holds "help"; typing
   * "he" and a line end then runs `help` as written, while no command is a
   * prefix of the typed line "he", so the corrected step runs nothing.
   */
  lemma {:induction false} StaleBytesRunHelp()
    ensures var storage := "help" + seq(COMMAND_BUFFER_LEN_BYTES - 4, _ => 0 as char);
      RunsAfterAsWritten([CLEAR_ENTRY, HELP_ENTRY], storage, 2, Some(CR)) == [HELP_ENTRY] &&
      RunsAfter([CLEAR_ENTRY, HELP_ENTRY], storage[..2], Some(CR)) == []
  {
    var storage := "help" + seq(COMMAND_BUFFER_LEN_BYTES - 4, _ => 0 as char);
    var entries := [CLEAR_ENTRY, HELP_ENTRY];
    assert storage[..4] == "help";
    assert storage[..2] == "he";
    assert !StartsWith(storage, "clear") by {
      assert storage[1] == 'e';
    }
    LookupIsFirstMatch(entries, storage, 1);
  }

  /**
   * printBlockLine's padding for a text of `textLen` bytes: the spaces left of
   * the text, the spaces right of it, and the number of text bytes written.
   */
  datatype Padding = Padding(left: nat, right: nat, shown: nat)

  function BlockLinePadding(textLen: nat): (p: Padding)
    ensures p.shown == Min(textLen, HEADER_NUM_COLS - 4)
    ensures p.left + p.shown + p.right == HEADER_NUM_COLS - 4
    ensures p.left <= p.right <= p.left + 1
  {
    var total := if HEADER_NUM_COLS - textLen - 4 < 0 then 0 else HEADER_NUM_COLS - textLen - 4;
    var left := total / 2;
    Padding(left, total - left, Min(textLen, HEADER_NUM_COLS - 4))
  }

  /** A boxed header line: "* ", the centred (and, past 36 bytes, cut) text, " *". */
  function BlockLine(text: string): (line: string)
    ensures |line| == HEADER_NUM_COLS
    ensures line[..2] == "* " && line[HEADER_NUM_COLS - 2..] == " *"
    ensures |text| <= HEADER_NUM_COLS - 4 ==>
      var p := BlockLinePadding(|text|); line[2 + p.left..2 + p.left + |text|] == text
  {
    var p := BlockLinePadding(|text|);
    "* " + Spaces(p.left) + text[..p.shown] + Spaces(p.right) + " *"
  }

  /** The console's static state. */
  class ConsoleState {
    /** CXA_CONSOLE_MAX_COMMAND_LEN_BYTES */
    const maxCommandLen: nat
    const commandBuffer: BoundedArray<char>
    const commandEntries: BoundedArray<CommandEntry>
    var isExecutingCommand: bool
    /** Command callbacks that ran, in order. */
    var executed: seq<CommandEntry>

    ghost predicate Valid()
      reads this, commandBuffer, commandEntries
    {
      commandBuffer.Valid() && commandEntries.Valid() &&
      commandBuffer.buffer.Length == COMMAND_BUFFER_LEN_BYTES
    }

    /** The typed line. */
    ghost function Line(): string
      reads this, commandBuffer, commandBuffer.buffer
      requires commandBuffer.Valid()
    {
      commandBuffer.Elements()
    }

    /**
     * cxa_console_init: empty buffer and a table of CXA_CONSOLE_MAXNUM_COMMANDS
     * + 2 entries holding `clear` then `help`. Both names must fit the maximum
     * command length.
     */
    constructor Init(maxNumCommands: nat, maxCommandLen: nat)
      requires maxCommandLen >= 5
      ensures Valid() && this.maxCommandLen == maxCommandLen
      ensures Line() == [] && !isExecutingCommand && executed == []
      ensures commandEntries.Elements() == [CLEAR_ENTRY, HELP_ENTRY]
      ensures commandEntries.buffer.Length == maxNumCommands + 2
      ensures fresh(commandBuffer) && fresh(commandBuffer.buffer)
      ensures fresh(commandEntries) && fresh(commandEntries.buffer)
    {
      this.maxCommandLen := maxCommandLen;
      var raw := new char[COMMAND_BUFFER_LEN_BYTES];
      commandBuffer := new BoundedArray.Init(raw);
      var entriesRaw := new CommandEntry[maxNumCommands + 2];
      commandEntries := new BoundedArray.Init(entriesRaw);
      isExecutingCommand := false;
      executed := [];
      new;
      var ok := commandEntries.Append(CLEAR_ENTRY);
      ok := commandEntries.Append(HELP_ENTRY);
    }

    /**
     * cxa_console_addCommand: the name must fit CXA_CONSOLE_MAX_COMMAND_LEN_BYTES
     * and the table must have room (both are asserted); the entry goes last.
     */
    method AddCommand(command: string, cb: CommandCb, userVar: nat)
      requires Valid() && |command| <= maxCommandLen
      requires commandEntries.Size() < commandEntries.MaxSize()
      modifies commandEntries, commandEntries.buffer
      ensures Valid()
      ensures commandEntries.Elements() == old(commandEntries.Elements()) + [CommandEntry(command, cb, userVar)]
    {
      var ok := commandEntries.Append(CommandEntry(command, cb, userVar));
    }

    /** The command-matching loop of cb_onRunLoopUpdate, over the typed line. */
    method FindCommand(line: string) returns (m: Option<nat>)
      requires Valid()
      ensures m == Lookup(commandEntries.Elements(), line)
    {
      var entries := commandEntries.Visit();
      var i := 0;
      while i < |entries|
        invariant i <= |entries|
        invariant forall j :: 0 <= j < i ==> !StartsWith(line, entries[j].command)
      {
        if StartsWith(line, entries[i].command) {
          LookupIsFirstMatch(entries, line, i);
          return Some(i);
        }
        i := i + 1;
      }
      m := None;
    }

    /**
     * cb_onRunLoopUpdate for one tick that read `rx` (None: no byte waiting).
     * The buffer changes as LineAfter says, the command RunsAfter names runs,
     * and a tick that ends a command or overflows the buffer redraws the prompt,
     * which leaves isExecutingCommand clear.
     */
    method OnRunLoopUpdate(rx: Option<char>)
      requires Valid()
      modifies this, commandBuffer, commandBuffer.buffer
      ensures Valid()
      ensures Line() == LineAfter(old(Line()), rx, COMMAND_BUFFER_LEN_BYTES)
      ensures executed == old(executed) + RunsAfter(commandEntries.Elements(), old(Line()), rx)
      ensures isExecutingCommand ==
        if rx.Some? && IsLineEnd(rx.value) && old(Line()) != [] then false
        else if rx.Some? && !IsLineEnd(rx.value) && !IsErase(rx.value) && |old(Line())| == COMMAND_BUFFER_LEN_BYTES then false
        else old(isExecutingCommand)
    {
      if rx.None? {
        return;
      }
      var b := rx.value;
      if IsLineEnd(b) {
        if commandBuffer.IsEmpty() {
          return;
        }
        var line := commandBuffer.Visit();
        var m := FindCommand(line);
        if m.Some? {
          var entry := commandEntries.Get(m.value);
          isExecutingCommand := true;
          executed := executed + [entry.value];
        }
        commandBuffer.Clear();
        isExecutingCommand := false;
        return;
      }
      if IsErase(b) {
        var n := commandBuffer.Size();
        if n > 0 {
          var ok := commandBuffer.RemoveAtIndex(n - 1);
        }
        return;
      }
      var ok := commandBuffer.Append(b);
      if !ok {
        commandBuffer.Clear();
        isExecutingCommand := false;
      }
    }
  }
}
