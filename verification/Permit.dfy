/** The permit file between the daemon that refreshes it and the runtime that watches it. */
module Permit {
  import opened Records

  const PERMIT_TIMEOUT_MS: nat := 6_000

  // ----- the text of a permit -----

  predicate IsDigit(c: char) { '0' <= c <= '9' }

  /** The White_Space property of Unicode. */
  predicate IsSpace(c: char) {
    || '\U{0009}' <= c <= '\U{000D}' || c == ' ' || c == '\U{0085}' || c == '\U{00A0}' || c == '\U{1680}'
    || '\U{2000}' <= c <= '\U{200A}' || '\U{2028}' <= c <= '\U{2029}' || c == '\U{202F}' || c == '\U{205F}'
    || c == '\U{3000}'
  }

  function Digit(n: nat): (c: char)
    requires n < 10
    ensures IsDigit(c) && c as nat == '0' as nat + n
  {
    ('0' as nat + n) as char
  }

  /** Decimal without leading zeros. */
  function Decimal(n: nat): (s: string)
    ensures s != [] && forall c :: c in s ==> IsDigit(c)
  {
    if n < 10 then [Digit(n)] else Decimal(n / 10) + [Digit(n % 10)]
  }

  function DigitValue(c: char): (n: nat)
    requires IsDigit(c)
    ensures n < 10
  {
    c as nat - '0' as nat
  }

  function Value(digits: string): nat
    requires forall c :: c in digits ==> IsDigit(c)
  {
    if digits == [] then 0
    else
      var last := |digits| - 1;
      assert digits[last] in digits && forall c :: c in digits[..last] ==> c in digits;
      Value(digits[..last]) * 10 + DigitValue(digits[last])
  }

  /** An unsigned 64-bit field: digits only, after at most one plus sign, and in range. */
  function ParseU64(field: string): Option<U64> {
    var digits := if field != [] && field[0] == '+' then field[1..] else field;
    if digits != [] && (forall c :: c in digits ==> IsDigit(c)) && Value(digits) <= U64_MAX then Some(Value(digits))
    else None
  }

  /** The fields of a text, separated by any run of white space. */
  function Fields(text: string): seq<string> {
    if text == [] then []
    else if IsSpace(text[0]) then Fields(text[1..])
    else
      var n := FieldEnd(text);
      [text[..n]] + Fields(text[n..])
  }

  /** Where the field at the start of the text ends. */
  function FieldEnd(text: string): (n: nat)
    requires text != [] && !IsSpace(text[0])
    ensures 0 < n <= |text| && (n < |text| ==> IsSpace(text[n])) && forall i :: 0 <= i < n ==> !IsSpace(text[i])
  {
    if |text| == 1 || IsSpace(text[1]) then 1 else 1 + FieldEnd(text[1..])
  }

  function Render(gen: Generation, heartbeat: U64): string {
    Decimal(gen.epoch) + [' '] + (Decimal(gen.token) + [' '] + (Decimal(heartbeat) + ['\n'] + []))
  }

  function Parse(text: string): Option<(Generation, U64)> {
    var fields := Fields(text);
    if |fields| != 3 then None
    else
      var epoch, token, heartbeat := ParseU64(fields[0]), ParseU64(fields[1]), ParseU64(fields[2]);
      if epoch.None? || token.None? || heartbeat.None? then None
      else Some((Generation(epoch.value, token.value), heartbeat.value))
  }

  lemma {:induction false} DecimalValue(n: nat)
    ensures Value(Decimal(n)) == n
  {
    var s := Decimal(n);
    if n >= 10 {
      DecimalValue(n / 10);
      assert s[..|s| - 1] == Decimal(n / 10);
    } else {
      assert s[..0] == [];
    }
  }

  lemma DecimalParses(n: U64)
    ensures ParseU64(Decimal(n)) == Some(n)
  {
    DecimalValue(n);
    assert Decimal(n)[0] in Decimal(n);
  }

  /** A field in front of a separator is the first field. */
  lemma {:induction false} FirstField(field: string, sep: char, rest: string)
    requires field != [] && (forall c :: c in field ==> !IsSpace(c)) && IsSpace(sep)
    ensures Fields(field + [sep] + rest) == [field] + Fields(rest)
  {
    var text := field + [sep] + rest;
    assert text[0] == field[0] && field[0] in field;
    var n := FieldEnd(text);
    assert text[|field|] == sep;
    assert forall i :: 0 <= i < |field| ==> text[i] == field[i] && field[i] in field;
    assert n == |field| && text[..n] == field && text[n..] == [sep] + rest;
    assert ([sep] + rest)[1..] == rest;
  }

  predicate Word(field: string) { field != [] && forall c :: c in field ==> !IsSpace(c) }

  lemma ThreeFields(a: string, b: string, c: string)
    requires Word(a) && Word(b) && Word(c)
    ensures Fields(a + [' '] + (b + [' '] + (c + ['\n'] + []))) == [a, b, c]
  {
    FirstField(a, ' ', b + [' '] + (c + ['\n'] + []));
    FirstField(b, ' ', c + ['\n'] + []);
    FirstField(c, '\n', []);
  }

  /** What the daemon writes, the watch reads back. */
  lemma PermitRoundTrip(gen: Generation, heartbeat: U64)
    ensures Parse(Render(gen, heartbeat)) == Some((gen, heartbeat))
  {
    ThreeFields(Decimal(gen.epoch), Decimal(gen.token), Decimal(heartbeat));
    DecimalParses(gen.epoch);
    DecimalParses(gen.token);
    DecimalParses(heartbeat);
  }

  /** A numeral: digits, with at most one plus sign in front. */
  predicate Numeral(field: string) {
    var digits := if field != [] && field[0] == '+' then field[1..] else field;
    digits != [] && forall c :: c in digits ==> IsDigit(c)
  }

  /** Nothing else is read as a permit: three fields, each a numeral of an unsigned 64-bit value. */
  lemma OnlyPermitsParse(text: string)
    ensures Parse(text).Some? <==>
              && |Fields(text)| == 3
              && forall k :: 0 <= k < 3 ==>
                   && Numeral(Fields(text)[k])
                   && var f := Fields(text)[k]; Value(if f[0] == '+' then f[1..] else f) <= U64_MAX
  {
  }

  // ----- the watch -----

  /** The heartbeat a text shows for exactly the expected generation; `None` is a file that could not be read. */
  function Beat(text: Option<string>, expected: Generation): Option<U64> {
    if text.None? then None
    else
      var permit := Parse(text.value);
      if permit.Some? && permit.value.0 == expected then Some(permit.value.1) else None
  }

  /** One look at the permit file: what it showed, and when. */
  datatype Look = Look(beat: Option<U64>, at: Instant)

  datatype Memory = Memory(heartbeat: Option<U64>, refresh: Option<Instant>)

  function Noted(m: Memory, look: Look): Memory {
    if look.beat.None? || m.heartbeat == look.beat then m
    else if m.heartbeat.None? then Memory(look.beat, m.refresh)
    else Memory(look.beat, Some(look.at))
  }

  function Remembered(looks: seq<Look>): Memory {
    if looks == [] then Memory(None, None)
    else Noted(Remembered(looks[..|looks| - 1]), looks[|looks| - 1])
  }

  class PermitWatch {
    const expected: Generation
    var lastHeartbeat: Option<U64>
    var lastRefresh: Option<Instant>
    ghost var looks: seq<Look>

    ghost predicate Valid()
      reads this
    {
      Memory(lastHeartbeat, lastRefresh) == Remembered(looks)
    }

    constructor (expected: Generation)
      ensures Valid() && this.expected == expected && looks == []
    {
      this.expected := expected;
      lastHeartbeat, lastRefresh, looks := None, None, [];
    }

    predicate IsFresh(now: Instant)
      reads this
    {
      lastRefresh.Some? && Elapsed(now, lastRefresh.value) < PERMIT_TIMEOUT_MS
    }

    /** An unreadable, malformed or foreign permit is not live and changes nothing. */
    method Observe(text: Option<string>, now: Instant) returns (live: bool)
      requires Valid()
      modifies this
      ensures Valid() && looks == old(looks) + [Look(Beat(text, expected), now)]
      ensures live == (Beat(text, expected).Some? && IsFresh(now))
    {
      ghost var look := Look(Beat(text, expected), now);
      assert (looks + [look])[..|looks|] == looks;
      looks := looks + [look];
      if text.None? {
        return false;
      }
      var permit := Parse(text.value);
      if permit.None? || permit.value.0 != expected {
        return false;
      }
      var heartbeat := permit.value.1;
      if lastHeartbeat.None? {
        lastHeartbeat := Some(heartbeat);
      } else if lastHeartbeat.value != heartbeat {
        lastHeartbeat, lastRefresh := Some(heartbeat), Some(now);
      }
      return IsFresh(now);
    }
  }

  /** Two looks, nothing of the generation in between, that show different heartbeats. */
  ghost predicate Changed(looks: seq<Look>, i: nat, j: nat) {
    && i < j < |looks|
    && looks[i].beat.Some? && looks[j].beat.Some? && looks[i].beat != looks[j].beat
    && forall k :: i < k < j ==> looks[k].beat.None?
  }

  /** The remembered heartbeat is that of the last look that showed one. */
  lemma {:induction false} LastBeat(looks: seq<Look>) returns (i: nat)
    ensures var m := Remembered(looks);
            && (m.heartbeat.None? ==> m.refresh.None? && forall k :: 0 <= k < |looks| ==> looks[k].beat.None?)
            && (m.heartbeat.Some? ==>
                  && i < |looks| && looks[i].beat == m.heartbeat
                  && forall k :: i < k < |looks| ==> looks[k].beat.None?)
  {
    if looks == [] {
      i := 0;
    } else {
      var n := |looks| - 1;
      i := LastBeat(looks[..n]);
      if looks[n].beat.Some? { i := n; }
    }
  }

  /** The remembered refresh is the time of some change. */
  lemma {:induction false} RefreshIsChange(looks: seq<Look>) returns (i: nat, j: nat)
    requires Remembered(looks).refresh.Some?
    ensures Changed(looks, i, j) && looks[j].at == Remembered(looks).refresh.value
    decreases |looks|
  {
    var n := |looks| - 1;
    var before, m := looks[..n], Remembered(looks[..n]);
    var beat := looks[n].beat;
    if m.heartbeat.Some? && beat.Some? && beat != m.heartbeat {
      i := LastBeat(before);
      j := n;
    } else {
      i, j := RefreshIsChange(before);
    }
  }

  /** And no change is later than the remembered refresh. */
  lemma {:induction false} ChangeIsNoted(looks: seq<Look>, a: nat, b: nat)
    requires forall i, j :: 0 <= i < j < |looks| ==> looks[i].at <= looks[j].at
    requires Changed(looks, a, b)
    ensures var m := Remembered(looks); m.refresh.Some? && looks[b].at <= m.refresh.value
    decreases |looks|
  {
    var n := |looks| - 1;
    if b < n {
      assert Changed(looks[..n], a, b);
      ChangeIsNoted(looks[..n], a, b);
      RefreshIsPast(looks[..n]);
    } else {
      var last := LastBeat(looks[..n]);
    }
  }

  lemma RefreshIsPast(looks: seq<Look>)
    requires Remembered(looks).refresh.Some?
    ensures exists j :: 0 <= j < |looks| && looks[j].at == Remembered(looks).refresh.value
  {
  }

  /** A watch is live exactly when it saw the heartbeat change less than six seconds ago. */
  lemma LiveExactlyAfterChange(looks: seq<Look>, now: Instant)
    requires forall i, j :: 0 <= i < j < |looks| ==> looks[i].at <= looks[j].at
    ensures var m := Remembered(looks);
            (m.refresh.Some? && Elapsed(now, m.refresh.value) < PERMIT_TIMEOUT_MS)
              <==> exists i: nat, j: nat :: Changed(looks, i, j) && now < looks[j].at + 6_000
  {
    var m := Remembered(looks);
    if m.refresh.Some? {
      var i, j := RefreshIsChange(looks);
    }
    if i: nat, j: nat :| Changed(looks, i, j) && now < looks[j].at + 6_000 {
      ChangeIsNoted(looks, i, j);
    }
  }

  /** A permit that never changes never becomes live, however often it is read. */
  lemma FrozenPermitIsNeverLive(looks: seq<Look>, heartbeat: U64)
    requires forall k :: 0 <= k < |looks| ==> looks[k].beat.None? || looks[k].beat == Some(heartbeat)
    ensures Remembered(looks).refresh.None?
  {
    if Remembered(looks).refresh.Some? {
      var i, j := RefreshIsChange(looks);
      assert false;
    }
  }
}
