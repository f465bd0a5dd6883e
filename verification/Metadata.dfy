/** The metadata frame at the bottom of every stack: printed by `generate_metadata` and parsed by `parse_metadata`
    (src/cli_profile_metadata/cli_profile_metadata.c).
  */
module Metadata {
  import opened Bits
  import opened Options
  import opened Bytes

  const COMM_LEN: nat := 15
  const ENV_MAX: nat := 511
  /** `CPA_BASE_INFO_LEN` without the terminating zero. */
  const BUFFER_MAX: nat := 577
  const BAR: byte := 124

  datatype Meta = Meta(comm: seq<byte>, group: seq<byte>, cg: int, cpu: int, pid: int, env: seq<byte>)

  // ---------------------------------------------------------------------------------------------
  // Printing

  /** The first 15 bytes, padded with spaces. */
  function Pad(s: seq<byte>): (r: seq<byte>)
    ensures |r| == COMM_LEN
  {
    if |s| >= COMM_LEN then s[..COMM_LEN] else s + seq(COMM_LEN - |s|, _ => SPACE)
  }

  function Magnitude(x: int): nat {
    if x < 0 then -x else x
  }

  /** `%d`. */
  function PrintInt(x: int): seq<byte> {
    if x < 0 then [MINUS] + Dec(-x) else Dec(x)
  }

  function Numbers(m: Meta): seq<byte> {
    [MINUS] + PrintInt(m.cg) + [MINUS] + PrintInt(m.cpu) + [MINUS] + PrintInt(m.pid)
  }

  function Base(m: Meta): seq<byte> {
    Pad(m.comm) + Pad(m.group) + Numbers(m)
  }

  function Clip(s: seq<byte>, n: nat): (r: seq<byte>)
    ensures |r| <= n && r <= s
  {
    if |s| > n then s[..n] else s
  }

  /** `generate_metadata` into a buffer of the usual size. */
  function Generate(m: Meta): seq<byte> {
    Clip(Base(m) + [BAR] + m.env, BUFFER_MAX)
  }

  // ---------------------------------------------------------------------------------------------
  // Parsing

  function FirstBar(s: seq<byte>, i: nat): (r: nat)
    requires i <= |s|
    ensures i <= r <= |s|
    decreases |s| - i
  {
    if i == |s| || s[i] == BAR then i else FirstBar(s, i + 1)
  }

  /** The last dash before `n`, or minus one. */
  function LastDash(s: seq<byte>, n: nat): (r: int)
    requires n <= |s|
    ensures -1 <= r < n
  {
    if n == 0 then -1 else if s[n - 1] == MINUS then n - 1 else LastDash(s, n - 1)
  }

  function TrimTo(s: seq<byte>, n: nat): (r: nat)
    requires n <= |s|
    ensures r <= n
  {
    if n > 0 && s[n - 1] == SPACE then TrimTo(s, n - 1) else n
  }

  function UntilZero(s: seq<byte>, i: nat): (r: nat)
    requires i <= |s|
    ensures i <= r <= |s|
    decreases |s| - i
  {
    if i == |s| || s[i] == 0 then i else UntilZero(s, i + 1)
  }

  /** One 15-byte field: trailing spaces dropped, then copied up to a zero byte. */
  function Field(raw: seq<byte>): (r: seq<byte>)
    ensures r <= raw
  {
    var kept := raw[..TrimTo(raw, |raw|)];
    kept[..UntilZero(kept, 0)]
  }

  /** The cgroup id, an `unsigned long` from `strtoul`. */
  function GroupId(x: int): nat {
    Ulong(x < 0, Magnitude(x))
  }

  /** The cpu, an `int` from `atoi`. */
  function Cpu(x: int): int {
    if IntBits(x) < U32 / 2 then IntBits(x) else IntBits(x) - U32
  }

  /** The first 30 bytes of the buffer once the bar at `bar` has become a zero; the buffer is filled up with zeros. */
  function RawFields(buf: seq<byte>, bar: nat): (r: seq<byte>)
    requires bar < |buf|
    ensures |r| == 2 * COMM_LEN
  {
    (buf[bar := 0] + seq(2 * COMM_LEN, _ => 0))[..2 * COMM_LEN]
  }

  datatype DashPositions = DashPositions(last: nat, second: nat, third: nat)

  /** The last three dashes. */
  function Dashes(base: seq<byte>): (r: Option<DashPositions>)
    ensures r.Some? ==> r.value.third < r.value.second < r.value.last < |base|
  {
    var d0 := LastDash(base, |base|);
    var d1 := if d0 < 0 then -1 else LastDash(base, d0);
    var d2 := if d1 < 0 then -1 else LastDash(base, d1);
    if d2 < 0 then None else Some(DashPositions(d0, d1, d2))
  }

  function Assemble(comm: seq<byte>, group: seq<byte>, base: seq<byte>, d: DashPositions, env: seq<byte>): Meta
    requires d.third < |base| && d.second < |base| && d.last < |base|
  {
    Meta(comm, group, GroupId(ToInt(base, d.third + 1)), Cpu(ToInt(base, d.second + 1)), IntBits(ToInt(base, d.last + 1)), env)
  }

  function Parse(input: seq<byte>): Option<Meta> {
    var buf := Clip(input, BUFFER_MAX);
    var bar := FirstBar(buf, 0);
    if bar == |buf| || bar == 0 then None
    else
      var base := buf[..bar];
      match Dashes(base)
      case None => None
      case Some(d) =>
        var raw := RawFields(buf, bar);
        Some(Assemble(Field(raw[..COMM_LEN]), Field(raw[COMM_LEN..]), base, d, Clip(buf[bar + 1..], ENV_MAX)))
  }

  /** `split_comm` on one field. */
  method SplitField(raw: seq<byte>) returns (r: seq<byte>)
    ensures r == Field(raw)
  {
    var end := |raw|;
    while end > 0 && raw[end - 1] == SPACE
      invariant 0 <= end <= |raw| && TrimTo(raw, end) == TrimTo(raw, |raw|)
    {
      end := end - 1;
    }
    var n := 0;
    while n < end && raw[n] != 0
      invariant 0 <= n <= end && UntilZero(raw[..end], n) == UntilZero(raw[..end], 0)
    {
      n := n + 1;
    }
    r := raw[..n];
    assert r == raw[..end][..n];
  }

  /** The backward scan for the last three dashes. */
  method FindDashes(base: seq<byte>) returns (r: Option<DashPositions>)
    ensures r == Dashes(base)
  {
    var d: seq<nat> := [];
    var pos := |base| - 1;
    ghost var from := |base|;
    while pos >= 0
      invariant -1 <= pos < |base| && |d| < 3 && pos < from <= |base|
      invariant LastDash(base, from) == LastDash(base, pos + 1)
      invariant |d| == 0 ==> from == |base|
      invariant |d| > 0 ==> d[0] < |base| && d[0] == LastDash(base, |base|)
      invariant |d| == 1 ==> from == d[0]
      invariant |d| == 2 ==> from == d[1] && d[1] < |base| && d[1] == LastDash(base, d[0])
    {
      if base[pos] == MINUS {
        d := d + [pos];
        from := pos;
        if |d| == 3 {
          return Some(DashPositions(d[0], d[1], d[2]));
        }
      }
      pos := pos - 1;
    }
    r := None;
  }

  method FindBar(buf: seq<byte>) returns (bar: nat)
    ensures bar == FirstBar(buf, 0)
  {
    bar := 0;
    while bar < |buf| && buf[bar] != BAR
      invariant bar <= |buf| && FirstBar(buf, bar) == FirstBar(buf, 0)
    {
      bar := bar + 1;
    }
  }

  method ParseMetadata(input: seq<byte>) returns (r: Option<Meta>)
    ensures r == Parse(input)
  {
    var buf := Clip(input, BUFFER_MAX);
    var bar := FindBar(buf);
    if bar == |buf| || bar == 0 {
      return None;
    }
    var base := buf[..bar];
    var dashes := FindDashes(base);
    if dashes.None? {
      return None;
    }
    var d := dashes.value;
    var raw := RawFields(buf, bar);
    var comm := SplitField(raw[..COMM_LEN]);
    var group := SplitField(raw[COMM_LEN..]);
    r := Some(Assemble(comm, group, base, d, Clip(buf[bar + 1..], ENV_MAX)));
  }

  // ---------------------------------------------------------------------------------------------
  // The round trip

  /** A C string has no zero byte. */
  ghost predicate IsString(s: seq<byte>) {
    forall i :: 0 <= i < |s| ==> s[i] != 0
  }

  ghost predicate NoBar(s: seq<byte>) {
    forall i :: 0 <= i < |s| ==> s[i] != BAR
  }

  /** What a caller can check: a name of at most 15 bytes without a bar and without a trailing space. */
  ghost predicate GoodName(s: seq<byte>) {
    |s| <= COMM_LEN && NoBar(s) && (s != [] ==> s[|s| - 1] != SPACE)
  }

  ghost predicate WellFormed(m: Meta) {
    GoodName(m.comm) && GoodName(m.group) && m.cg >= 0 && m.cpu >= 0 && m.pid >= 0 && |m.env| <= ENV_MAX
  }

  predicate IsInt32(x: int) {
    -(U32 / 2) <= x < U32 / 2
  }

  /** The arguments as the callers have them: C strings and 32-bit ints. */
  ghost predicate Arguments(m: Meta) {
    && IsString(m.comm) && IsString(m.group) && IsString(m.env)
    && IsInt32(m.cg) && IsInt32(m.cpu) && IsInt32(m.pid)
  }

  lemma {:induction false} FirstBarIs(s: seq<byte>, i: nat, n: nat)
    requires i <= n < |s| && s[n] == BAR && forall j :: i <= j < n ==> s[j] != BAR
    ensures FirstBar(s, i) == n
    decreases n - i
  {
    if i < n {
      FirstBarIs(s, i + 1, n);
    }
  }

  lemma {:induction false} FirstBarStops(s: seq<byte>, i: nat, n: nat)
    requires i <= n < |s| && s[n] == BAR
    ensures FirstBar(s, i) <= n
    decreases n - i
  {
    if s[i] != BAR {
      FirstBarStops(s, i + 1, n);
    }
  }

  lemma {:induction false} TrimIs(s: seq<byte>, n: nat, k: nat)
    requires k <= n <= |s| && (forall i :: k <= i < n ==> s[i] == SPACE) && (k > 0 ==> s[k - 1] != SPACE)
    ensures TrimTo(s, n) == k
    decreases n - k
  {
    if k < n {
      TrimIs(s, n - 1, k);
    }
  }

  lemma {:induction false} TrimLeavesNoSpace(s: seq<byte>, n: nat)
    requires n <= |s|
    ensures TrimTo(s, n) > 0 ==> s[TrimTo(s, n) - 1] != SPACE
  {
    if n > 0 && s[n - 1] == SPACE {
      TrimLeavesNoSpace(s, n - 1);
    }
  }

  lemma {:induction false} UntilZeroAll(s: seq<byte>, i: nat)
    requires i <= |s| && IsString(s)
    ensures UntilZero(s, i) == |s|
    decreases |s| - i
  {
    if i < |s| {
      UntilZeroAll(s, i + 1);
    }
  }

  lemma {:induction false} UntilZeroStops(s: seq<byte>, i: nat, n: nat)
    requires i <= n < |s| && s[n] == 0
    ensures UntilZero(s, i) <= n
    decreases n - i
  {
    if s[i] != 0 {
      UntilZeroStops(s, i + 1, n);
    }
  }

  /** A padded name is read back exactly when it is short enough and does not end in a space. */
  lemma {:induction false} PaddedField(s: seq<byte>)
    requires IsString(s)
    ensures Field(Pad(s)) == s <==> |s| <= COMM_LEN && (s != [] ==> s[|s| - 1] != SPACE)
  {
    var raw := Pad(s);
    var k := TrimTo(raw, |raw|);
    assert IsString(raw[..k]);
    UntilZeroAll(raw[..k], 0);
    assert Field(raw) == raw[..k];
    if |s| <= COMM_LEN && (s != [] ==> s[|s| - 1] != SPACE) {
      TrimIs(raw, |raw|, |s|);
      assert raw[..|s|] == s;
    } else if |s| <= COMM_LEN {
      TrimLeavesNoSpace(raw, |raw|);
      assert raw[|s| - 1] == s[|s| - 1];
    }
  }

  lemma {:induction false} DashIs(s: seq<byte>, n: nat, k: nat)
    requires k < n <= |s| && s[k] == MINUS && forall i :: k < i < n ==> s[i] != MINUS
    ensures LastDash(s, n) == k
  {
    if k < n - 1 {
      DashIs(s, n - 1, k);
    }
  }

  /** Where the last dash before a printed number stands. */
  function DashBefore(pre: seq<byte>, x: int): nat {
    if x < 0 then |pre| + 1 else |pre|
  }

  /** The last dash before `end` and the number after it. */
  function ReadBack(s: seq<byte>, end: nat): (int, int)
    requires end <= |s|
  {
    var d := LastDash(s, end);
    (d, if d < 0 then 0 else ToInt(s, d + 1))
  }

  lemma {:induction false} DigitsFound(s: seq<byte>, front: seq<byte>, n: nat, post: seq<byte>, end: nat)
    requires post == [] || post[0] == MINUS
    requires front != [] && front[|front| - 1] == MINUS
    requires s == front + Dec(n) + post && end == |front| + |Dec(n)|
    ensures ReadBack(s, end) == (|front| - 1, n)
  {
    var digits := Dec(n);
    DecDigits(n);
    DecRoundTrip(front, n, post);
    forall i | |front| <= i < end
      ensures IsDigit(s[i])
    {
      assert s[i] == digits[i - |front|];
    }
    DashIs(s, end, |front| - 1);
  }

  lemma {:induction false} TwoDashes(s: seq<byte>, pre: seq<byte>, digits: seq<byte>, post: seq<byte>)
    requires s == pre + [MINUS] + ([MINUS] + digits) + post
    ensures s == pre + [MINUS] + [MINUS] + digits + post
    ensures |pre| + 2 <= |s| && s[|pre|] == MINUS && s[|pre| + 1] == MINUS
  {
  }

  /** After any text and a dash, a printed number is found by its last dash and read back without its sign. */
  lemma {:induction false} NumberFound(s: seq<byte>, pre: seq<byte>, x: int, post: seq<byte>, end: nat)
    requires post == [] || post[0] == MINUS
    requires s == pre + [MINUS] + PrintInt(x) + post && end == |pre| + 1 + |PrintInt(x)|
    ensures ReadBack(s, end) == (DashBefore(pre, x), Magnitude(x))
  {
    var digits := Dec(Magnitude(x));
    if x < 0 {
      var front := pre + [MINUS] + [MINUS];
      TwoDashes(s, pre, digits, post);
      DigitsFound(s, front, -x, post, end);
    } else {
      DigitsFound(s, pre + [MINUS], x, post, end);
    }
  }

  lemma {:induction false} SignedAt(s: seq<byte>, p: nat, x: nat)
    requires p + 2 <= |s| && s[p] == MINUS && s[p + 1] == MINUS && NumberAt(s, p + 2, 0).0 == x
    ensures ReadBack(s, p + 1) == (p, 0 - x)
  {
  }

  lemma {:induction false} NumberBehind(s: seq<byte>, front: seq<byte>, n: nat, post: seq<byte>)
    requires s == front + Dec(n) + post && (post == [] || post[0] == MINUS)
    ensures |front| <= |s| && NumberAt(s, |front|, 0).0 == n
  {
    DecRoundTrip(front, n, post);
  }

  /** Before a negative number there are two dashes, and from the first of them on it is read with its sign. */
  lemma {:induction false} SignFound(s: seq<byte>, pre: seq<byte>, x: int, post: seq<byte>)
    requires x < 0 && (post == [] || post[0] == MINUS)
    requires s == pre + [MINUS] + PrintInt(x) + post
    ensures |pre| + 1 <= |s| && ReadBack(s, |pre| + 1) == (|pre|, x)
  {
    TwoDashes(s, pre, Dec(-x), post);
    NumberBehind(s, pre + [MINUS] + [MINUS], -x, post);
    SignedAt(s, |pre|, -x);
  }

  /** 32-bit numbers keep their value, but the least negative one is its own opposite. */
  lemma {:induction false} Narrowed(x: int)
    requires 0 <= x <= U32 / 2
    ensures IntBits(x) == x && GroupId(x) == x && Cpu(x) == if x < U32 / 2 then x else -x
    ensures x > 0 ==> GroupId(-x) == U64 - x
  {
    LowShift(x, U32 / 2);
  }

  /** The text before the environment is short, so that the buffer never cuts it, nor an environment of up to 511 bytes. */
  lemma {:induction false} BaseFits(m: Meta)
    requires Arguments(m)
    ensures |Base(m)| <= 66 && (m.cg >= 0 && m.cpu >= 0 && m.pid >= 0 ==> |Base(m)| <= 63)
  {
    DecShort(Magnitude(m.cg));
    DecShort(Magnitude(m.cpu));
    DecShort(Magnitude(m.pid));
  }

  lemma {:induction false} BaseSplits(m: Meta, a: seq<byte>, b: seq<byte>, c: seq<byte>)
    requires a == Pad(m.comm) + Pad(m.group) && b == a + [MINUS] + PrintInt(m.cg) && c == b + [MINUS] + PrintInt(m.cpu)
    ensures Base(m) == c + [MINUS] + PrintInt(m.pid) + []
    ensures Base(m) == b + [MINUS] + PrintInt(m.cpu) + ([MINUS] + PrintInt(m.pid))
    ensures Base(m) == a + [MINUS] + PrintInt(m.cg) + ([MINUS] + PrintInt(m.cpu) + [MINUS] + PrintInt(m.pid))
  {
    var p, q, r, d: seq<byte> := PrintInt(m.cg), PrintInt(m.cpu), PrintInt(m.pid), [MINUS];
    var n := d + p + d + q + d + r;
    assert Base(m) == a + n;
    assert a + n == a + d + p + (d + q + d + r);
    assert a + n == a + d + p + d + q + (d + r);
    assert a + n == a + d + p + d + q + d + r + [];
  }

  /** What the last dash of the printed text leads to. */
  lemma {:induction false} PidRead(m: Meta, base: seq<byte>, c: seq<byte>)
    requires base == c + [MINUS] + PrintInt(m.pid) + []
    ensures ReadBack(base, |base|) == (DashBefore(c, m.pid), Magnitude(m.pid))
  {
    NumberFound(base, c, m.pid, [], |base|);
  }

  /** The numbers as they stand behind the last three dashes. */
  ghost predicate NumbersAre(m: Meta, base: seq<byte>, d: DashPositions)
    requires d.third < |base| && d.second < |base| && d.last < |base|
  {
    && ToInt(base, d.last + 1) == Magnitude(m.pid)
    && (m.pid >= 0 ==> ToInt(base, d.second + 1) == Magnitude(m.cpu))
    && (m.pid >= 0 && m.cpu >= 0 ==> ToInt(base, d.third + 1) == Magnitude(m.cg))
    && (m.pid >= 0 && m.cpu < 0 ==> ToInt(base, d.third + 1) == m.cpu)
  }

  lemma {:induction false} CpuRead(m: Meta, base: seq<byte>, a: seq<byte>, b: seq<byte>, end: nat)
    requires |b| == |a| + 1 + |PrintInt(m.cg)|
    requires base == a + [MINUS] + PrintInt(m.cg) + ([MINUS] + PrintInt(m.cpu) + [MINUS] + PrintInt(m.pid))
    requires base == b + [MINUS] + PrintInt(m.cpu) + ([MINUS] + PrintInt(m.pid)) && end == |b| + 1 + |PrintInt(m.cpu)|
    ensures var (d1, cpu) := ReadBack(base, end);
            && d1 >= 0 && cpu == Magnitude(m.cpu)
            && var (d2, cg) := ReadBack(base, d1);
               d2 >= 0 && cg == if m.cpu >= 0 then Magnitude(m.cg) else m.cpu
  {
    var post := [MINUS] + PrintInt(m.pid);
    NumberFound(base, b, m.cpu, post, end);
    if m.cpu < 0 {
      SignFound(base, b, m.cpu, post);
    } else {
      NumberFound(base, a, m.cg, [MINUS] + PrintInt(m.cpu) + [MINUS] + PrintInt(m.pid), |b|);
    }
  }

  lemma {:induction false} NumbersRead(m: Meta, base: seq<byte>)
    requires base == Base(m)
    ensures var (d0, pid) := ReadBack(base, |base|);
            && d0 >= 0 && pid == Magnitude(m.pid)
            && (m.pid >= 0 ==>
                  var (d1, cpu) := ReadBack(base, d0);
                  && d1 >= 0 && cpu == Magnitude(m.cpu)
                  && var (d2, cg) := ReadBack(base, d1);
                     d2 >= 0 && cg == if m.cpu >= 0 then Magnitude(m.cg) else m.cpu)
  {
    var a := Pad(m.comm) + Pad(m.group);
    var b := a + [MINUS] + PrintInt(m.cg);
    var c := b + [MINUS] + PrintInt(m.cpu);
    BaseSplits(m, a, b, c);
    PidRead(m, base, c);
    CpuRead(m, base, a, b, |c|);
  }

  lemma {:induction false} LastRead(base: seq<byte>)
    ensures Dashes(base).Some? ==>
              var d := Dashes(base).value;
              && ReadBack(base, |base|) == (d.last, ToInt(base, d.last + 1))
              && ReadBack(base, d.last) == (d.second, ToInt(base, d.second + 1))
              && ReadBack(base, d.second) == (d.third, ToInt(base, d.third + 1))
  {
  }

  lemma {:induction false} DashesRead(m: Meta, base: seq<byte>)
    requires base == Base(m)
    ensures m.pid >= 0 ==> Dashes(base).Some?
    ensures Dashes(base).Some? ==> NumbersAre(m, base, Dashes(base).value)
  {
    NumbersRead(m, base);
    LastRead(base);
  }

  lemma {:induction false} PrintHasNoBar(x: int)
    ensures NoBar(PrintInt(x))
  {
    DecDigits(Magnitude(x));
  }

  lemma {:induction false} FirstBarHit(s: seq<byte>, i: nat)
    requires i <= |s|
    ensures FirstBar(s, i) < |s| ==> s[FirstBar(s, i)] == BAR
    decreases |s| - i
  {
    if i < |s| && s[i] != BAR {
      FirstBarHit(s, i + 1);
    }
  }

  lemma {:induction false} FieldStops(raw: seq<byte>, n: nat)
    requires n < |raw| && raw[n] == 0
    ensures |Field(raw)| <= n
  {
    var k := TrimTo(raw, |raw|);
    if n < k {
      UntilZeroStops(raw[..k], 0, n);
    }
  }

  /** The buffer that the parser works on starts with the whole text before the environment and the bar. */
  lemma {:induction false} BufferStarts(m: Meta)
    requires Arguments(m)
    ensures var buf := Clip(Generate(m), BUFFER_MAX);
            && |Base(m)| < |buf| && buf[..|Base(m)|] == Base(m) && buf[|Base(m)|] == BAR && buf == Generate(m)
            && |Base(m)| >= 36 && buf[..COMM_LEN] == Pad(m.comm) && buf[COMM_LEN..2 * COMM_LEN] == Pad(m.group)
  {
    BaseFits(m);
    var text := Base(m) + [BAR] + m.env;
    var buf := Clip(text, BUFFER_MAX);
    assert text[|Base(m)|] == BAR && text[..|Base(m)|] == Base(m);
    assert buf[..|Base(m)|] == Base(m);
    assert Base(m)[..COMM_LEN] == Pad(m.comm);
    assert Base(m)[COMM_LEN..2 * COMM_LEN] == Pad(m.group);
    assert buf[..COMM_LEN] == Base(m)[..COMM_LEN];
    assert buf[COMM_LEN..2 * COMM_LEN] == Base(m)[COMM_LEN..2 * COMM_LEN];
  }

  lemma {:induction false} BarIs(m: Meta)
    requires Arguments(m) && NoBar(Pad(m.comm)) && NoBar(Pad(m.group))
    ensures FirstBar(Generate(m), 0) == |Base(m)|
  {
    BufferStarts(m);
    var buf, base := Generate(m), Base(m);
    PrintHasNoBar(m.cg);
    PrintHasNoBar(m.cpu);
    PrintHasNoBar(m.pid);
    assert NoBar(Numbers(m));
    assert NoBar(base);
    forall j | 0 <= j < |base|
      ensures buf[j] != BAR
    {
      assert buf[j] == buf[..|base|][j];
    }
    FirstBarIs(buf, 0, |base|);
  }

  lemma {:induction false} RawIs(buf: seq<byte>, bar: nat)
    requires 2 * COMM_LEN <= bar < |buf|
    ensures RawFields(buf, bar)[..COMM_LEN] == buf[..COMM_LEN]
    ensures RawFields(buf, bar)[COMM_LEN..] == buf[COMM_LEN..2 * COMM_LEN]
  {
  }

  /** What the parser makes of the printed parts. */
  ghost predicate Parts(m: Meta, r: Meta) {
    && r.comm == Field(Pad(m.comm)) && r.group == Field(Pad(m.group))
    && r.pid == Magnitude(m.pid)
    && (m.pid >= 0 && m.cpu >= 0 ==> r.cpu == m.cpu && r.cg == Magnitude(m.cg))
    && (m.pid >= 0 && m.cpu < 0 ==> r.cg == U64 + m.cpu)
    && |r.env| <= ENV_MAX
  }

  /** The parser on a buffer whose first bar lies behind both names. */
  lemma {:induction false} ParseIs(buf: seq<byte>, bar: nat)
    requires |buf| <= BUFFER_MAX && 2 * COMM_LEN <= bar < |buf| && FirstBar(buf, 0) == bar
    ensures Dashes(buf[..bar]).None? ==> Parse(buf).None?
    ensures Dashes(buf[..bar]).Some? ==>
              Parse(buf) == Some(Assemble(Field(buf[..COMM_LEN]), Field(buf[COMM_LEN..2 * COMM_LEN]), buf[..bar], Dashes(buf[..bar]).value,
                                          Clip(buf[bar + 1..], ENV_MAX)))
  {
    RawIs(buf, bar);
    assert Clip(buf, BUFFER_MAX) == buf;
  }

  lemma {:induction false} PartsNarrowed(m: Meta, base: seq<byte>, d: DashPositions, env: seq<byte>)
    requires Arguments(m) && d.third < |base| && d.second < |base| && d.last < |base| && NumbersAre(m, base, d) && |env| <= ENV_MAX
    ensures Parts(m, Assemble(Field(Pad(m.comm)), Field(Pad(m.group)), base, d, env))
  {
    Narrowed(Magnitude(m.pid));
    Narrowed(Magnitude(m.cpu));
    Narrowed(Magnitude(m.cg));
  }

  /** With no bar in the names, the parser sees both padded names, the numbers and the environment. */
  lemma {:induction false} ParsedParts(m: Meta)
    requires Arguments(m) && NoBar(Pad(m.comm)) && NoBar(Pad(m.group))
    ensures var r := Parse(Generate(m));
            r.Some? ==> Parts(m, r.value)
    ensures m.pid >= 0 ==> Parse(Generate(m)).Some?
  {
    BufferStarts(m);
    BarIs(m);
    var base, buf := Base(m), Generate(m);
    ParseIs(buf, |base|);
    DashesRead(m, base);
    if Dashes(base).Some? {
      PartsNarrowed(m, base, Dashes(base).value, Clip(buf[|base| + 1..], ENV_MAX));
    }
  }

  lemma {:induction false} EnvKept(m: Meta)
    requires Arguments(m) && WellFormed(m)
    ensures |Base(m)| < |Generate(m)| && Clip(Generate(m)[|Base(m)| + 1..], ENV_MAX) == m.env
  {
    BaseFits(m);
    var text := Base(m) + [BAR] + m.env;
    assert Generate(m) == text;
    assert text[|Base(m)| + 1..] == m.env;
  }

  lemma {:induction false} RawZero(buf: seq<byte>, bar: nat)
    requires bar < |buf| && bar < 2 * COMM_LEN
    ensures RawFields(buf, bar)[bar] == 0
  {
  }

  /** A bar in a name makes the parser stop inside it. */
  lemma {:induction false} BarSpoilsComm(m: Meta)
    requires Arguments(m) && !NoBar(Pad(m.comm))
    ensures Parse(Generate(m)).Some? ==> Parse(Generate(m)).value.comm != m.comm
  {
    BufferStarts(m);
    var buf := Generate(m);
    var i :| 0 <= i < COMM_LEN && Pad(m.comm)[i] == BAR;
    assert buf[i] == buf[..COMM_LEN][i];
    FirstBarStops(buf, 0, i);
    var bar := FirstBar(buf, 0);
    RawZero(buf, bar);
    FieldStops(RawFields(buf, bar)[..COMM_LEN], bar);
  }

  lemma {:induction false} BarSpoilsGroup(m: Meta)
    requires Arguments(m) && NoBar(Pad(m.comm)) && !NoBar(Pad(m.group))
    ensures Parse(Generate(m)).Some? ==> Parse(Generate(m)).value.group != m.group
  {
    BufferStarts(m);
    var buf := Generate(m);
    var i :| 0 <= i < COMM_LEN && Pad(m.group)[i] == BAR;
    assert buf[COMM_LEN + i] == buf[COMM_LEN..2 * COMM_LEN][i];
    FirstBarStops(buf, 0, COMM_LEN + i);
    FirstBarHit(buf, 0);
    var bar := FirstBar(buf, 0);
    assert forall j :: 0 <= j < COMM_LEN ==> buf[j] == buf[..COMM_LEN][j];
    assert bar >= COMM_LEN;
    var raw := RawFields(buf, bar);
    RawZero(buf, bar);
    assert raw[COMM_LEN..][bar - COMM_LEN] == raw[bar];
    FieldStops(raw[COMM_LEN..], bar - COMM_LEN);
  }

  lemma {:induction false} BarInPad(s: seq<byte>)
    requires |s| <= COMM_LEN
    ensures NoBar(Pad(s)) <==> NoBar(s)
  {
    forall i | 0 <= i < |s|
      ensures Pad(s)[i] == s[i]
    {
    }
  }

  lemma {:induction false} EnvParsed(m: Meta)
    requires Arguments(m) && WellFormed(m) && NoBar(Pad(m.comm)) && NoBar(Pad(m.group))
    ensures Parse(Generate(m)).Some? ==> Parse(Generate(m)).value.env == m.env
  {
    EnvKept(m);
    BarIs(m);
    BufferStarts(m);
  }

  /** Parsing undoes printing exactly for names of at most 15 bytes without a bar or a trailing space, non-negative numbers and an
      environment of at most 511 bytes. Dashes may stand anywhere, bars in the environment. */
  lemma {:induction false} ParseUndoesGenerate(m: Meta)
    requires Arguments(m)
    ensures Parse(Generate(m)) == Some(m) <==> WellFormed(m)
  {
    PaddedField(m.comm);
    PaddedField(m.group);
    if !NoBar(Pad(m.comm)) {
      BarSpoilsComm(m);
      if |m.comm| <= COMM_LEN {
        BarInPad(m.comm);
      }
    } else if !NoBar(Pad(m.group)) {
      BarSpoilsGroup(m);
      if |m.group| <= COMM_LEN {
        BarInPad(m.group);
      }
    } else {
      NoBarsRoundTrip(m);
    }
  }

  lemma {:induction false} PartsDecide(m: Meta, r: Meta)
    requires Arguments(m) && NoBar(Pad(m.comm)) && NoBar(Pad(m.group)) && Parts(m, r)
    requires WellFormed(m) ==> r.env == m.env
    ensures r == m <==> WellFormed(m)
  {
    PaddedField(m.comm);
    PaddedField(m.group);
    if |m.comm| <= COMM_LEN {
      BarInPad(m.comm);
    }
    if |m.group| <= COMM_LEN {
      BarInPad(m.group);
    }
  }

  lemma {:induction false} NoBarsRoundTrip(m: Meta)
    requires Arguments(m) && NoBar(Pad(m.comm)) && NoBar(Pad(m.group))
    ensures Parse(Generate(m)) == Some(m) <==> WellFormed(m)
  {
    ParsedParts(m);
    var r := Parse(Generate(m));
    if r.Some? {
      if WellFormed(m) {
        EnvParsed(m);
      }
      PartsDecide(m, r.value);
    }
  }
}
