/** The two text dictionaries beside stack.bin: strmap gives each frame id its string, idsmap gives
    each stack id its list of frame ids (src/cli_stackmap_helper/cli_stackmap.c).
  */
module Dictionary {
  import opened Bits
  import opened Bytes

  type Frame = seq<byte>

  ghost predicate NoNewline(s: seq<byte>) {
    forall i :: 0 <= i < |s| ==> s[i] != NEWLINE
  }

  ghost predicate IdsFit(ids: seq<nat>) {
    forall i :: 0 <= i < |ids| ==> ids[i] < U32
  }

  // ---------------------------------------------------------------------------------------------
  // Writing

  /** The line end that both dictionaries share: a space, the id and a newline. */
  function IdTail(id: nat): seq<byte> {
    [SPACE] + Dec(id) + [NEWLINE]
  }

  /** The first `n` lines of a dictionary; ids start at one. */
  function FileOf(texts: seq<seq<byte>>, n: nat): seq<byte>
    requires n <= |texts|
  {
    if n == 0 then [] else FileOf(texts, n - 1) + (texts[n - 1] + IdTail(n))
  }

  /** The first `n` frame ids, each with a semicolon after it. */
  function IdList(ids: seq<nat>, n: nat): seq<byte>
    requires n <= |ids|
  {
    if n == 0 then [] else IdList(ids, n - 1) + (Dec(ids[n - 1]) + [SEMICOLON])
  }

  function IdTexts(stacks: seq<seq<nat>>): (t: seq<seq<byte>>)
    ensures |t| == |stacks|
    ensures forall i :: 0 <= i < |stacks| ==> t[i] == IdList(stacks[i], |stacks[i]|)
  {
    seq(|stacks|, i requires 0 <= i < |stacks| => IdList(stacks[i], |stacks[i]|))
  }

  /** strmap holding the first `n` frames, and idsmap holding the first `n` stacks. */
  function StrFile(strs: seq<Frame>, n: nat): seq<byte>
    requires n <= |strs|
  {
    FileOf(strs, n)
  }

  function IdsFile(stacks: seq<seq<nat>>, n: nat): seq<byte>
    requires n <= |stacks|
  {
    FileOf(IdTexts(stacks), n)
  }

  // ---------------------------------------------------------------------------------------------
  // Reading

  /** The position after the line that begins at `pos`. */
  function LineEnd(file: seq<byte>, pos: nat): (e: nat)
    requires pos < |file|
    ensures pos < e <= |file|
    decreases |file| - pos
  {
    if file[pos] == NEWLINE || pos + 1 == |file| then pos + 1 else LineEnd(file, pos + 1)
  }

  /** The last space among the first `n` bytes, or -1. */
  function LastSpace(line: seq<byte>, n: nat): (r: int)
    requires n <= |line|
    ensures -1 <= r < n
  {
    if n == 0 then -1 else if line[n - 1] == SPACE then n - 1 else LastSpace(line, n - 1)
  }

  /** The id at the end of a line, from `atoi`. */
  function LineId(line: seq<byte>, pos: nat): nat
    requires pos <= |line|
  {
    IntBits(ToInt(line, pos))
  }

  /** The entries found by a lookup after `lines` lines, and the memory that each line gets; beyond its end there is enough. */
  datatype Loading<T, L> = Loading(lines: nat, entries: map<nat, T>, memory: seq<L>)

  /** Memory for the entry of a frame and for its text. */
  datatype StrMemory = StrMemory(entry: bool, text: bool)

  predicate StrLuck(memory: seq<StrMemory>, k: nat) {
    k < |memory| ==> memory[k].entry && memory[k].text
  }

  /** One strmap line adds one frame; a line without a space or without memory adds none, and one whose text gets no memory hides an
      earlier frame of that id. */
  function StrHandler(line: seq<byte>, st: Loading<Frame, StrMemory>): Loading<Frame, StrMemory> {
    var i := LastSpace(line, |line|);
    var next := st.(lines := st.lines + 1);
    if i < 0 then next
    else if StrLuck(st.memory, st.lines) then next.(entries := st.entries[LineId(line, i + 1) := line[..i]])
    else if st.memory[st.lines].entry then next.(entries := st.entries - {LineId(line, i + 1)})
    else next
  }

  datatype ParsedIds = Parsed(ids: seq<nat>) | BadFormat | NoRoom

  /** Memory for growth `k` of an array; beyond the end of `grow` there is enough. */
  predicate Growth(grow: seq<bool>, k: nat) {
    k < |grow| ==> grow[k]
  }

  /** The numbers of `text` from `pos` on, each ended by a semicolon; the array that holds them has been doubled `grown` times and is
      doubled when it is full. */
  function ParseIds(text: seq<byte>, pos: nat, acc: seq<nat>, grown: nat, grow: seq<bool>): ParsedIds
    requires pos <= |text|
    decreases |text| - pos
  {
    if pos == |text| then Parsed(acc)
    else
      var (v, e) := StrToU32(text, pos);
      if e == pos then Parsed(acc)
      else if e == |text| || text[e] != SEMICOLON then BadFormat
      else if |acc| + 1 != Pow2(grown) then ParseIds(text, e + 1, acc + [v], grown, grow)
      else if Growth(grow, grown) then ParseIds(text, e + 1, acc + [v], grown + 1, grow)
      else NoRoom
  }

  /** Memory for the entry of a stack and for the growths of its id list. */
  datatype IdsMemory = IdsMemory(entry: bool, grow: seq<bool>)

  function IdsLuck(memory: seq<IdsMemory>, k: nat): IdsMemory {
    if k < |memory| then memory[k] else IdsMemory(true, [])
  }

  function IdsHandler(line: seq<byte>, st: Loading<seq<nat>, IdsMemory>): Loading<seq<nat>, IdsMemory> {
    var i := LastSpace(line, |line|);
    var next := st.(lines := st.lines + 1);
    var luck := IdsLuck(st.memory, st.lines);
    if i < 0 || !luck.entry then next
    else match ParseIds(line[..i], 0, [], 0, luck.grow)
      case Parsed(ids) => next.(entries := st.entries[LineId(line, i + 1) := ids])
      case _ => next
  }

  /** `process_file_by_line`: what the handler makes of the lines from `pos` on. */
  function LoadLines<M>(file: seq<byte>, pos: nat, m: M, handler: (seq<byte>, M) -> M): M
    requires pos <= |file|
    decreases |file| - pos
  {
    if pos == |file| then m
    else var e := LineEnd(file, pos); LoadLines(file, e, handler(file[pos..e], m), handler)
  }

  function LoadStrs(file: seq<byte>, memory: seq<StrMemory>): map<nat, Frame> {
    LoadLines(file, 0, Loading(0, map[], memory), StrHandler).entries
  }

  function LoadIds(file: seq<byte>, memory: seq<IdsMemory>): map<nat, seq<nat>> {
    LoadLines(file, 0, Loading(0, map[], memory), IdsHandler).entries
  }

  /** `getline` from `pos`. */
  method GetLine(file: seq<byte>, pos: nat) returns (e: nat)
    requires pos < |file|
    ensures e == LineEnd(file, pos)
  {
    e := pos;
    while e < |file| && file[e] != NEWLINE
      invariant pos <= e <= |file|
      invariant e < |file| ==> LineEnd(file, pos) == LineEnd(file, e)
      invariant e == |file| ==> LineEnd(file, pos) == |file|
    {
      e := e + 1;
    }
    if e < |file| {
      e := e + 1;
    }
  }

  /** `strrchr(line, ' ')`. */
  method FindLastSpace(line: seq<byte>) returns (i: int)
    ensures i == LastSpace(line, |line|)
  {
    i := |line| - 1;
    while i >= 0 && line[i] != SPACE
      invariant -1 <= i < |line|
      invariant LastSpace(line, i + 1) == LastSpace(line, |line|)
    {
      i := i - 1;
    }
  }

  /** The parsing loop of `idsmap_handler`. */
  method ParseIdList(text: seq<byte>, grow: seq<bool>) returns (r: ParsedIds)
    ensures r == ParseIds(text, 0, [], 0, grow)
  {
    var ids: seq<nat> := [];
    var capacity := 1;
    var grown: nat := 0;
    var start := 0;
    while start < |text|
      invariant start <= |text| && capacity == Pow2(grown)
      invariant ParseIds(text, start, ids, grown, grow) == ParseIds(text, 0, [], 0, grow)
      decreases |text| - start
    {
      var (num, end) := StrToU32(text, start);
      if start == end {
        break;
      }
      if end == |text| || text[end] != SEMICOLON {
        return BadFormat;
      }
      ids := ids + [num];
      if |ids| == capacity {
        if !Growth(grow, grown) {
          return NoRoom;
        }
        capacity := capacity * 2;
        grown := grown + 1;
      }
      start := end + 1;
    }
    r := Parsed(ids);
  }

  /** `process_file_by_line` with `strmap_handler`. */
  method ReloadStrmap(file: seq<byte>, memory: seq<StrMemory>) returns (m: map<nat, Frame>)
    ensures m == LoadStrs(file, memory)
  {
    m := map[];
    var pos, lines := 0, 0;
    while pos < |file|
      invariant pos <= |file|
      invariant LoadLines(file, pos, Loading(lines, m, memory), StrHandler).entries == LoadStrs(file, memory)
      decreases |file| - pos
    {
      var e := GetLine(file, pos);
      var line := file[pos..e];
      var i := FindLastSpace(line);
      if i >= 0 && (lines < |memory| ==> memory[lines].entry) {
        var num := LineId(line, i + 1);
        m := if lines < |memory| && !memory[lines].text then m - {num} else m[num := line[..i]];
      }
      pos := e;
      lines := lines + 1;
    }
  }

  /** `process_file_by_line` with `idsmap_handler`. */
  method ReloadIdsmap(file: seq<byte>, memory: seq<IdsMemory>) returns (m: map<nat, seq<nat>>)
    ensures m == LoadIds(file, memory)
  {
    m := map[];
    var pos, lines := 0, 0;
    while pos < |file|
      invariant pos <= |file|
      invariant LoadLines(file, pos, Loading(lines, m, memory), IdsHandler).entries == LoadIds(file, memory)
      decreases |file| - pos
    {
      var e := GetLine(file, pos);
      var line := file[pos..e];
      var i := FindLastSpace(line);
      var luck := IdsLuck(memory, lines);
      if i >= 0 && luck.entry {
        var r := ParseIdList(line[..i], luck.grow);
        if r.Parsed? {
          m := m[LineId(line, i + 1) := r.ids];
        }
      }
      pos := e;
      lines := lines + 1;
    }
  }

  // ---------------------------------------------------------------------------------------------
  // One line

  lemma {:induction false} LastSpaceIs(line: seq<byte>, i: nat, n: nat)
    requires i < n <= |line| && line[i] == SPACE && forall j :: i < j < n ==> line[j] != SPACE
    ensures LastSpace(line, n) == i
  {
    if n - 1 > i {
      LastSpaceIs(line, i, n - 1);
    }
  }

  lemma {:induction false} LineEndIs(file: seq<byte>, pos: nat, e: nat)
    requires pos <= e < |file| && file[e] == NEWLINE && forall i :: pos <= i < e ==> file[i] != NEWLINE
    ensures LineEnd(file, pos) == e + 1
    decreases e - pos
  {
    if pos < e {
      LineEndIs(file, pos + 1, e);
    }
  }

  /** Whatever text stands before it, the id at the end of a line is found and read back. */
  lemma {:induction false} TailRoundTrip(text: seq<byte>, id: nat)
    requires id < U32
    ensures var line := text + IdTail(id);
            LastSpace(line, |line|) == |text| && LineId(line, |text| + 1) == id && line[..|text|] == text
  {
    var line := text + IdTail(id);
    DecDigits(id);
    assert line == (text + [SPACE]) + Dec(id) + [NEWLINE];
    IntRoundTrip(text + [SPACE], id, [NEWLINE]);
    forall j | |text| < j < |line|
      ensures line[j] != SPACE
    {
      if j < |text| + 1 + |Dec(id)| {
        assert line[j] == Dec(id)[j - |text| - 1];
      }
    }
    LastSpaceIs(line, |text|, |line|);
  }

  lemma {:induction false} TailOneLine(id: nat)
    ensures var t := IdTail(id);
            |t| > 0 && t[|t| - 1] == NEWLINE && forall i :: 0 <= i < |t| - 1 ==> t[i] != NEWLINE
  {
    DecDigits(id);
    var t := IdTail(id);
    forall i | 0 <= i < |t| - 1
      ensures t[i] != NEWLINE
    {
      if i > 0 {
        assert t[i] == Dec(id)[i - 1];
      }
    }
  }

  lemma {:induction false} IdListPrefix(ids: seq<nat>, n: nat, m: nat)
    requires n <= m <= |ids|
    ensures IdList(ids, n) <= IdList(ids, m)
  {
    if n < m {
      IdListPrefix(ids, n, m - 1);
    }
  }

  lemma {:induction false} IdListOneLine(ids: seq<nat>, n: nat)
    requires n <= |ids|
    ensures NoNewline(IdList(ids, n))
  {
    if n > 0 {
      IdListOneLine(ids, n - 1);
      DecDigits(ids[n - 1]);
    }
  }

  /** The number `v` stands from `pos` up to the semicolon before `next`. */
  ghost predicate NumberFound(text: seq<byte>, pos: nat, next: nat, v: nat) {
    pos + 1 < next <= |text| && StrToU32(text, pos) == (v, next - 1) && text[next - 1] == SEMICOLON
  }

  /** The `n`th number is read back where it stands. */
  lemma {:induction false} NumberInList(ids: seq<nat>, n: nat)
    requires n < |ids| && ids[n] < U32
    ensures NumberFound(IdList(ids, |ids|), |IdList(ids, n)|, |IdList(ids, n + 1)|, ids[n])
  {
    var text, done, d := IdList(ids, |ids|), IdList(ids, n), Dec(ids[n]);
    IdListPrefix(ids, n + 1, |ids|);
    var upTo := done + (d + [SEMICOLON]);
    assert upTo == IdList(ids, n + 1);
    var rest := text[|upTo|..];
    assert text == done + d + ([SEMICOLON] + rest);
    DecRoundTrip(done, ids[n], [SEMICOLON] + rest);
  }

  /** All growths that `n` ids need succeed. */
  ghost predicate RoomFor(grow: seq<bool>, n: nat) {
    forall k :: 0 <= k < |grow| && Pow2(k) <= n ==> grow[k]
  }

  /** The array holds `n` ids after `grown` growths. */
  ghost predicate GrownTo(grow: seq<bool>, grown: nat, n: nat) {
    n < Pow2(grown) && forall k :: 0 <= k < grown ==> Pow2(k) <= n && Growth(grow, k)
  }

  lemma {:induction false} GrownIsRoom(grow: seq<bool>, grown: nat, n: nat)
    requires GrownTo(grow, grown, n)
    ensures RoomFor(grow, n)
  {
    forall k | 0 <= k < |grow| && Pow2(k) <= n
      ensures grow[k]
    {
      if k >= grown {
        Pow2Grows(grown, k);
      } else {
        assert Growth(grow, k);
      }
    }
  }

  /** Parsing goes from number to number when each is found where it should be, until the array cannot grow. */
  lemma {:induction false} ParseRest(text: seq<byte>, ids: seq<nat>, at: seq<nat>, n: nat, grown: nat, grow: seq<bool>)
    requires n <= |ids| && |at| == |ids| + 1 && at[|ids|] == |text| && GrownTo(grow, grown, n)
    requires forall k :: 0 <= k < |ids| ==> NumberFound(text, at[k], at[k + 1], ids[k])
    ensures at[n] <= |text|
    ensures ParseIds(text, at[n], ids[..n], grown, grow) == if RoomFor(grow, |ids|) then Parsed(ids) else NoRoom
    decreases |ids| - n
  {
    if n == |ids| {
      assert ids[..n] == ids;
      GrownIsRoom(grow, grown, n);
    } else {
      assert NumberFound(text, at[n], at[n + 1], ids[n]);
      assert ids[..n] + [ids[n]] == ids[..n + 1];
      if n + 1 != Pow2(grown) {
        ParseRest(text, ids, at, n + 1, grown, grow);
      } else if Growth(grow, grown) {
        ParseRest(text, ids, at, n + 1, grown + 1, grow);
      }
    }
  }

  lemma {:induction false} IdListRoundTrip(ids: seq<nat>, grow: seq<bool>)
    requires IdsFit(ids)
    ensures ParseIds(IdList(ids, |ids|), 0, [], 0, grow) == if RoomFor(grow, |ids|) then Parsed(ids) else NoRoom
  {
    var at := seq(|ids| + 1, n requires 0 <= n <= |ids| => |IdList(ids, n)|);
    forall k | 0 <= k < |ids|
      ensures NumberFound(IdList(ids, |ids|), at[k], at[k + 1], ids[k])
    {
      NumberInList(ids, k);
    }
    ParseRest(IdList(ids, |ids|), ids, at, 0, 0, grow);
    assert ids[..0] == [];
  }

  lemma {:induction false} StrLineRoundTrip(s: Frame, id: nat, st: Loading<Frame, StrMemory>)
    requires id < U32 && id !in st.entries
    ensures StrHandler(s + IdTail(id), st) ==
            Loading(st.lines + 1, if StrLuck(st.memory, st.lines) then st.entries[id := s] else st.entries, st.memory)
  {
    TailRoundTrip(s, id);
    assert st.entries - {id} == st.entries;
  }

  /** Memory for the entry and all growths of stack `k`. */
  ghost predicate StackLuck(stack: seq<nat>, memory: seq<IdsMemory>, k: nat) {
    IdsLuck(memory, k).entry && RoomFor(IdsLuck(memory, k).grow, |stack|)
  }

  lemma {:induction false} IdsLineRoundTrip(ids: seq<nat>, id: nat, st: Loading<seq<nat>, IdsMemory>)
    requires id < U32 && IdsFit(ids)
    ensures IdsHandler(IdList(ids, |ids|) + IdTail(id), st) ==
            Loading(st.lines + 1, if StackLuck(ids, st.memory, st.lines) then st.entries[id := ids] else st.entries, st.memory)
  {
    var text := IdList(ids, |ids|);
    TailRoundTrip(text, id);
    IdListRoundTrip(ids, IdsLuck(st.memory, st.lines).grow);
  }

  // ---------------------------------------------------------------------------------------------
  // Whole files

  /** The dictionary of the first `n` entries. */
  function Table<T>(s: seq<T>, n: nat): map<nat, T>
    requires n <= |s|
  {
    if n == 0 then map[] else Table(s, n - 1)[n := s[n - 1]]
  }

  lemma {:induction false} TableLookup<T>(s: seq<T>, n: nat, id: nat)
    requires n <= |s|
    ensures id in Table(s, n) <==> 1 <= id <= n
    ensures 1 <= id <= n ==> Table(s, n)[id] == s[id - 1]
  {
    if n > 0 {
      TableLookup(s, n - 1, id);
    }
  }

  lemma {:induction false} FilePrefix(texts: seq<seq<byte>>, n: nat, m: nat)
    requires n <= m <= |texts|
    ensures FileOf(texts, n) <= FileOf(texts, m)
  {
    if n < m {
      FilePrefix(texts, n, m - 1);
    }
  }

  /** A line that is whole in the file is cut out as it is. */
  lemma {:induction false} LineCut(done: seq<byte>, text: seq<byte>, id: nat, rest: seq<byte>)
    requires NoNewline(text)
    ensures var line := text + IdTail(id);
            var file := done + line + rest;
            && LineEnd(file, |done|) == |done| + |line|
            && file[|done|..|done| + |line|] == line
  {
    var line := text + IdTail(id);
    var file := done + line + rest;
    TailOneLine(id);
    var e := |done| + |line| - 1;
    assert forall i :: 0 <= i < |line| ==> file[|done| + i] == line[i];
    forall i | |done| <= i < e
      ensures file[i] != NEWLINE
    {
      var k := i - |done|;
      assert file[i] == line[k];
      if k >= |text| {
        assert line[k] == IdTail(id)[k - |text|];
      }
    }
    assert file[e] == line[|line| - 1] == IdTail(id)[|IdTail(id)| - 1];
    LineEndIs(file, |done|, e);
  }

  lemma {:induction false} LineInFile(done: seq<byte>, text: seq<byte>, id: nat, file: seq<byte>)
    requires NoNewline(text) && done + (text + IdTail(id)) <= file
    ensures var line := text + IdTail(id);
            && |done| < |file| && LineEnd(file, |done|) == |done| + |line|
            && file[|done|..|done| + |line|] == line
  {
    var line := text + IdTail(id);
    var rest := file[|done + line|..];
    assert file == done + line + rest;
    LineCut(done, text, id, rest);
  }

  /** Reading from line `n` on passes through the given states when each line leads from one to the next. */
  lemma {:induction false} LineAt(texts: seq<seq<byte>>, n: nat, file: seq<byte>, pos: nat)
    requires n < |texts| && file == FileOf(texts, |texts|) && pos == |FileOf(texts, n)| && NoNewline(texts[n])
    ensures var line := texts[n] + IdTail(n + 1);
            && pos < |file| && |FileOf(texts, n + 1)| == pos + |line| <= |file|
            && LineEnd(file, pos) == pos + |line| && file[pos..pos + |line|] == line
  {
    FilePrefix(texts, n + 1, |texts|);
    LineInFile(FileOf(texts, n), texts[n], n + 1, file);
  }

  lemma {:induction false} LoadOne<M>(file: seq<byte>, pos: nat, line: seq<byte>, m: M, handler: (seq<byte>, M) -> M)
    requires pos < |file| && pos + |line| <= |file| && LineEnd(file, pos) == pos + |line| && file[pos..pos + |line|] == line
    ensures LoadLines(file, pos, m, handler) == LoadLines(file, pos + |line|, handler(line, m), handler)
  {
  }

  /** The handler leads from each state to the next, line by line. */
  ghost predicate Carries<M(!new)>(texts: seq<seq<byte>>, states: seq<M>, handler: (seq<byte>, M) -> M) {
    && |states| == |texts| + 1
    && forall k :: 0 <= k < |texts| ==> NoNewline(texts[k]) && handler(texts[k] + IdTail(k + 1), states[k]) == states[k + 1]
  }

  lemma {:induction false} LoadNext<M(!new)>(texts: seq<seq<byte>>, n: nat, file: seq<byte>, states: seq<M>, handler: (seq<byte>, M) -> M)
    requires n < |texts| && Carries(texts, states, handler) && file == FileOf(texts, |texts|)
    ensures |FileOf(texts, n)| <= |FileOf(texts, n + 1)| <= |file|
    ensures LoadLines(file, |FileOf(texts, n)|, states[n], handler) == LoadLines(file, |FileOf(texts, n + 1)|, states[n + 1], handler)
  {
    LineAt(texts, n, file, |FileOf(texts, n)|);
    LoadOne(file, |FileOf(texts, n)|, texts[n] + IdTail(n + 1), states[n], handler);
  }

  lemma {:induction false} LoadRest<M(!new)>(texts: seq<seq<byte>>, n: nat, file: seq<byte>, states: seq<M>, handler: (seq<byte>, M) -> M)
    requires n <= |texts| && Carries(texts, states, handler) && file == FileOf(texts, |texts|) && |FileOf(texts, n)| <= |file|
    ensures LoadLines(file, |FileOf(texts, n)|, states[n], handler) == states[|texts|]
    decreases |texts| - n
  {
    if n < |texts| {
      LoadNext(texts, n, file, states, handler);
      LoadRest(texts, n + 1, file, states, handler);
    }
  }

  /** What is loaded after each line when the entries of `lost` are missing. */
  function Loads<T, L>(s: seq<T>, lost: set<nat>, memory: seq<L>): (t: seq<Loading<T, L>>)
    ensures |t| == |s| + 1
    ensures forall n :: 0 <= n <= |s| ==> t[n] == Loading(n, Table(s, n) - lost, memory)
  {
    seq(|s| + 1, n requires 0 <= n <= |s| => Loading(n, Table(s, n) - lost, memory))
  }

  lemma {:induction false} TableLess<T>(s: seq<T>, n: nat, lost: set<nat>)
    requires n < |s|
    ensures n + 1 !in Table(s, n) - lost
    ensures Table(s, n + 1) - lost == if n + 1 in lost then Table(s, n) - lost else (Table(s, n) - lost)[n + 1 := s[n]]
  {
    TableLookup(s, n, n + 1);
  }

  /** The frames whose lines get no memory. */
  ghost function LostStrs(strs: seq<Frame>, memory: seq<StrMemory>): set<nat> {
    set k: nat | k < |strs| && !StrLuck(memory, k) :: k + 1
  }

  /** The stacks whose lines get no memory. */
  ghost function LostStacks(stacks: seq<seq<nat>>, memory: seq<IdsMemory>): set<nat> {
    set k: nat | k < |stacks| && !StackLuck(stacks[k], memory, k) :: k + 1
  }

  /** The round trip of strmap: what comes back is every frame whose line gets memory, under its id. */
  lemma {:induction false} StrmapRoundTrip(strs: seq<Frame>, memory: seq<StrMemory>)
    requires |strs| < U32 && forall i :: 0 <= i < |strs| ==> NoNewline(strs[i])
    ensures LoadStrs(StrFile(strs, |strs|), memory) == Table(strs, |strs|) - LostStrs(strs, memory)
    ensures memory == [] ==> LoadStrs(StrFile(strs, |strs|), memory) == Table(strs, |strs|)
  {
    var lost := LostStrs(strs, memory);
    var states := Loads(strs, lost, memory);
    forall k | 0 <= k < |strs|
      ensures StrHandler(strs[k] + IdTail(k + 1), states[k]) == states[k + 1]
    {
      TableLess(strs, k, lost);
      StrLineRoundTrip(strs[k], k + 1, states[k]);
      assert k + 1 in lost <==> !StrLuck(memory, k);
    }
    assert states[0] == Loading(0, map[], memory);
    LoadRest(strs, 0, StrFile(strs, |strs|), states, StrHandler);
  }

  /** The round trip of idsmap: what comes back is every stack whose line gets memory for its entry and its id list, under its id. */
  lemma {:induction false} IdsmapRoundTrip(stacks: seq<seq<nat>>, memory: seq<IdsMemory>)
    requires |stacks| < U32
    requires forall i :: 0 <= i < |stacks| ==> IdsFit(stacks[i])
    ensures LoadIds(IdsFile(stacks, |stacks|), memory) == Table(stacks, |stacks|) - LostStacks(stacks, memory)
    ensures memory == [] ==> LoadIds(IdsFile(stacks, |stacks|), memory) == Table(stacks, |stacks|)
  {
    var lost := LostStacks(stacks, memory);
    var states := Loads(stacks, lost, memory);
    var texts := IdTexts(stacks);
    forall k | 0 <= k < |stacks|
      ensures NoNewline(texts[k])
      ensures IdsHandler(texts[k] + IdTail(k + 1), states[k]) == states[k + 1]
    {
      IdListOneLine(stacks[k], |stacks[k]|);
      TableLess(stacks, k, lost);
      IdsLineRoundTrip(stacks[k], k + 1, states[k]);
      assert k + 1 in lost <==> !StackLuck(stacks[k], memory, k);
    }
    assert states[0] == Loading(0, map[], memory);
    LoadRest(texts, 0, IdsFile(stacks, |stacks|), states, IdsHandler);
  }
}
