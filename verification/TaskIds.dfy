/** The task ids of the in-memory provider: text of a UUID, "fake:<kind>:<uuid>", and the parser that lets a
    restarted provider recognise ids it no longer remembers. */
module TaskIds {
  import opened Domain
  import opened Phases

  // ---- hexadecimal digits ----

  const HEX: string := "0123456789abcdef"

  function DigitValue(c: char): (v: Option<nat>)
    ensures v.Some? ==> v.value < 16
  {
    if '0' <= c <= '9' then Some((c - '0') as nat)
    else if 'a' <= c <= 'f' then Some(10 + (c - 'a') as nat)
    else if 'A' <= c <= 'F' then Some(10 + (c - 'A') as nat)
    else None
  }

  /** `n` as `width` lower-case digits. */
  function Digits(n: nat, width: nat): (s: string)
    ensures |s| == width
    ensures forall i :: 0 <= i < |s| ==> s[i] in HEX
  {
    if width == 0 then "" else Digits(n / 16, width - 1) + [HEX[n % 16]]
  }

  function Value(s: string): Option<nat> {
    if s == "" then Some(0)
    else
      var high, low := Value(s[..|s| - 1]), DigitValue(s[|s| - 1]);
      if high.Some? && low.Some? then Some(16 * high.value + low.value) else None
  }

  function Sixteens(width: nat): nat {
    if width == 0 then 1 else 16 * Sixteens(width - 1)
  }

  lemma QuotientFits(n: nat, width: nat)
    requires width > 0 && n < Sixteens(width)
    ensures n / 16 < Sixteens(width - 1)
  {}

  lemma DigitOf(d: nat)
    requires d < 16
    ensures DigitValue(HEX[d]) == Some(d)
  {
    assert HEX[..10] == "0123456789" && HEX[10..] == "abcdef";
  }

  lemma DigitsEnd(n: nat, width: nat)
    requires width > 0
    ensures var s := Digits(n, width); s[..|s| - 1] == Digits(n / 16, width - 1) && s[|s| - 1] == HEX[n % 16]
  {}

  lemma ValueOfSum(s: string, c: char)
    ensures Value(s + [c]) ==
            if Value(s).Some? && DigitValue(c).Some? then Some(16 * Value(s).value + DigitValue(c).value) else None
  {
    assert (s + [c])[..|s + [c]| - 1] == s;
  }

  lemma NoDigits(n: nat)
    requires n < Sixteens(0)
    ensures Value(Digits(n, 0)) == Some(n)
  {}

  lemma {:induction false} ValueOfDigits(n: nat, width: nat)
    requires n < Sixteens(width)
    ensures Value(Digits(n, width)) == Some(n)
  {
    hide DigitValue, Digits, Value, Sixteens;
    if width == 0 {
      NoDigits(n);
    } else {
      var high, s := Digits(n / 16, width - 1), Digits(n, width);
      DigitsEnd(n, width);
      assert s == high + [HEX[n % 16]];
      QuotientFits(n, width);
      ValueOfDigits(n / 16, width - 1);
      DigitOf(n % 16);
      ValueOfSum(high, HEX[n % 16]);
    }
  }

  lemma UuidWidth()
    ensures Sixteens(32) == UUID_LIMIT
  {
    assert Sixteens(8) == 0x1_0000_0000;
    assert Sixteens(16) == 0x1_0000_0000 * Sixteens(8) by { SixteensSum(8, 8); }
    assert Sixteens(32) == Sixteens(16) * Sixteens(16) by { SixteensSum(16, 16); }
  }

  lemma {:induction false} SixteensSum(a: nat, b: nat)
    ensures Sixteens(a + b) == Sixteens(a) * Sixteens(b)
  {
    if a > 0 { SixteensSum(a - 1, b); }
  }

  // ---- the text of a UUID ----

  /** Five groups of 8, 4, 4, 4 and 12 digits. */
  function UuidText(id: Uuid): string {
    var h := Digits(id, 32);
    h[..8] + "-" + h[8..12] + "-" + h[12..16] + "-" + h[16..20] + "-" + h[20..]
  }

  function Without(s: string, c: char): string {
    if s == "" then ""
    else Without(s[..|s| - 1], c) + (if s[|s| - 1] == c then "" else [s[|s| - 1]])
  }

  function StripLeft(s: string, drops: char -> bool): string {
    if s != "" && drops(s[0]) then StripLeft(s[1..], drops) else s
  }

  function StripRight(s: string, drops: char -> bool): string {
    if s != "" && drops(s[|s| - 1]) then StripRight(s[..|s| - 1], drops) else s
  }

  /** `str.strip`: characters to drop at both ends. */
  function Strip(s: string, drops: char -> bool): string {
    StripRight(StripLeft(s, drops), drops)
  }

  predicate IsSpace(c: char) {
    c == ' ' || c == '\t' || c == '\n' || c == '\r' || c == '\U{0b}' || c == '\U{0c}'
  }

  predicate IsBrace(c: char) {
    c == '{' || c == '}'
  }

  predicate IsDigit(c: char) {
    '0' <= c <= '9' || 'a' <= c <= 'f'
  }

  /** Digits, possibly grouped by single underscores. */
  function GroupedValue(s: string): Option<nat> {
    if s == "" || s[0] == '_' || s[|s| - 1] == '_' || exists i :: 0 <= i < |s| - 1 && s[i] == '_' && s[i + 1] == '_'
    then None else Value(Without(s, '_'))
  }

  /** `int(s, 16)`: surrounding white space, a sign, a "0x" prefix and grouping underscores are accepted. */
  function HexInt(s: string): Option<int> {
    var text := Strip(s, IsSpace);
    var signed := text != "" && (text[0] == '+' || text[0] == '-');
    var body := if signed then text[1..] else text;
    var prefixed := |body| >= 2 && body[0] == '0' && (body[1] == 'x' || body[1] == 'X');
    var digits := if !prefixed then body else if |body| > 2 && body[2] == '_' then body[3..] else body[2..];
    var n := GroupedValue(digits);
    if n.None? then None else Some(if signed && text[0] == '-' then 0 - (n.value as int) else n.value as int)
  }

  /** `UUID(text)` for a text without colons: braces around it and dashes are ignored, 32 characters must remain and
      be a number in range. */
  function ParseUuid(text: string): (id: Option<Uuid>)
  {
    var h := Without(Strip(text, IsBrace), '-');
    var n := HexInt(h);
    if |h| == 32 && n.Some? && 0 <= n.value < UUID_LIMIT then Some(n.value) else None
  }

  lemma StripPlain(s: string, drops: char -> bool)
    requires s != "" ==> !drops(s[0]) && !drops(s[|s| - 1])
    ensures Strip(s, drops) == s
  {}

  /** Plain lower-case digits are read as they stand. */
  lemma PlainHexInt(h: string)
    requires h != "" && forall i :: 0 <= i < |h| ==> IsDigit(h[i])
    ensures HexInt(h) == match Value(h) case None => None case Some(n) => Some(n)
  {
    hide Value, Without, DigitValue, Strip;
    StripPlain(h, IsSpace);
    WithoutNone(h, '_');
  }

  lemma {:induction false} WithoutSum(a: string, b: string, c: char)
    ensures Without(a + b, c) == Without(a, c) + Without(b, c)
  {
    if b == "" {
      assert a + b == a;
    } else {
      assert (a + b)[..|a + b| - 1] == a + b[..|b| - 1];
      WithoutSum(a, b[..|b| - 1], c);
    }
  }

  lemma {:induction false} WithoutNone(s: string, c: char)
    requires forall i :: 0 <= i < |s| ==> s[i] != c
    ensures Without(s, c) == s
  {
    if s != "" { WithoutNone(s[..|s| - 1], c); }
  }

  lemma OneDash()
    ensures Without("-", '-') == ""
  {}

  lemma WithoutDash(a: string, b: string)
    requires forall i :: 0 <= i < |a| ==> a[i] != '-'
    ensures Without(a + "-" + b, '-') == a + Without(b, '-')
  {
    hide Without;
    WithoutNone(a, '-');
    OneDash();
    WithoutSum(a, "-", '-');
    WithoutSum(a + "-", b, '-');
  }

  lemma Dashed(h: string)
    requires |h| == 32 && forall i :: 0 <= i < |h| ==> h[i] != '-'
    ensures Without(h[..8] + "-" + h[8..12] + "-" + h[12..16] + "-" + h[16..20] + "-" + h[20..], '-') == h
  {
    hide Without;
    var d := h[16..20] + "-" + h[20..];
    var c := h[12..16] + "-" + d;
    var b := h[8..12] + "-" + c;
    WithoutNone(h[20..], '-');
    WithoutDash(h[16..20], h[20..]);
    WithoutDash(h[12..16], d);
    WithoutDash(h[8..12], c);
    WithoutDash(h[..8], b);
    assert h[..8] + "-" + h[8..12] + "-" + h[12..16] + "-" + h[16..20] + "-" + h[20..] == h[..8] + "-" + b;
    assert h[..8] + (h[8..12] + (h[12..16] + (h[16..20] + h[20..]))) == h;
  }

  /** The parser reads back every UUID from its text. */
  lemma UuidRoundTrip(id: Uuid)
    ensures ParseUuid(UuidText(id)) == Some(id)
  {
    hide Digits, Value, Without, Sixteens, HexInt, Strip, IsDigit, IsBrace;
    var h := Digits(id, 32);
    DigitsPlain(id, 32);
    TextEnds(h);
    StripPlain(UuidText(id), IsBrace);
    NoDashInDigits(h);
    Dashed(h);
    PlainHexInt(h);
    UuidWidth();
    ValueOfDigits(id, 32);
  }

  lemma HexIsDigit(d: nat)
    requires d < 16
    ensures IsDigit(HEX[d])
  {
    DigitOf(d);
  }

  lemma {:induction false} DigitsPlain(n: nat, width: nat)
    ensures forall i :: 0 <= i < width ==> IsDigit(Digits(n, width)[i])
  {
    if width > 0 {
      DigitsPlain(n / 16, width - 1);
      HexIsDigit(n % 16);
    }
  }

  lemma NoDashInDigits(h: string)
    requires forall i :: 0 <= i < |h| ==> IsDigit(h[i])
    ensures forall i :: 0 <= i < |h| ==> h[i] != '-'
  {}

  lemma TextEnds(h: string)
    requires |h| == 32 && forall i :: 0 <= i < |h| ==> IsDigit(h[i])
    ensures var text := h[..8] + "-" + h[8..12] + "-" + h[12..16] + "-" + h[16..20] + "-" + h[20..];
            text != "" && !IsBrace(text[0]) && !IsBrace(text[|text| - 1])
  {
    var text := h[..8] + "-" + h[8..12] + "-" + h[12..16] + "-" + h[16..20] + "-" + h[20..];
    assert text[0] == h[0] && text[|text| - 1] == h[31];
  }

  // ---- splitting at colons ----

  /** `text.split(":")`. */
  function Split(s: string): (parts: seq<string>)
    ensures |parts| >= 1
  {
    if s == "" then [""]
    else
      var rest := Split(s[1..]);
      if s[0] == ':' then [""] + rest else [[s[0]] + rest[0]] + rest[1..]
  }

  lemma {:induction false} SplitPlain(s: string)
    requires forall i :: 0 <= i < |s| ==> s[i] != ':'
    ensures Split(s) == [s]
  {
    if s != "" {
      SplitPlain(s[1..]);
      assert Split(s) == [[s[0]] + s[1..]] + [];
      assert [s[0]] + s[1..] == s;
    }
  }

  lemma {:induction false} SplitFirst(a: string, b: string)
    requires forall i :: 0 <= i < |a| ==> a[i] != ':'
    ensures Split(a + ":" + b) == [a] + Split(b)
  {
    if a == "" {
      assert (a + ":" + b)[0] == ':' && (a + ":" + b)[1..] == b;
    } else {
      SplitFirst(a[1..], b);
      assert (a + ":" + b)[1..] == a[1..] + ":" + b;
      var rest := Split(a[1..] + ":" + b);
      assert rest[0] == a[1..] && rest[1..] == Split(b);
      assert (a + ":" + b)[0] == a[0] && [a[0]] + a[1..] == a;
    }
  }

  // ---- task ids ----

  /** The commands the in-memory provider answers with a task; a configure has none. */
  predicate MintsTask(c: Command) {
    c != ConfigureVm
  }

  function TaskText(c: Command, id: Uuid): string {
    "fake:" + CommandText(c) + ":" + UuidText(id)
  }

  function VmidOf(id: Uuid): int {
    100_000 + id % 899_900_000
  }

  /** Every derived VMID lies in the provider's range. */
  lemma VmidRange(id: Uuid)
    ensures 100_000 <= VmidOf(id) <= 899_999_999
  {}

  predicate KnownKind(text: string) {
    text in {"clone", "resize", "start", "shutdown", "stop", "delete"}
  }

  /** The stateless part of `get_task_status`: whether an id is one this node could have minted for this VMID. */
  predicate Accepts(node: string, task: ProviderTask) {
    var parts := Split(task.id);
    && |parts| == 3 && parts[0] == "fake" && KnownKind(parts[1])
    && var id := ParseUuid(parts[2]);
       id.Some? && task.at == Placement(node, VmidOf(id.value))
  }

  lemma UuidTextPlain(id: Uuid)
    ensures forall i :: 0 <= i < |UuidText(id)| ==> UuidText(id)[i] != ':'
  {}

  lemma CommandTextPlain(c: Command)
    ensures forall i :: 0 <= i < |CommandText(c)| ==> CommandText(c)[i] != ':'
  {}

  lemma TaskTextParts(c: Command, id: Uuid)
    ensures Split(TaskText(c, id)) == ["fake", CommandText(c), UuidText(id)]
  {
    hide Split, UuidText, CommandText;
    var rest := CommandText(c) + ":" + UuidText(id);
    assert TaskText(c, id) == "fake" + ":" + rest;
    SplitFirst("fake", rest);
    CommandTextPlain(c);
    SplitFirst(CommandText(c), UuidText(id));
    UuidTextPlain(id);
    SplitPlain(UuidText(id));
  }

  /** A task id minted for any VM and any task command is accepted by a provider that remembers nothing, at the
      same node and for that VM's VMID only. */
  lemma MintedIsAccepted(c: Command, id: Uuid, node: string, at: Placement)
    requires MintsTask(c)
    ensures Accepts(node, ProviderTask(TaskText(c, id), at)) <==> at == Placement(node, VmidOf(id))
  {
    TaskTextParts(c, id);
    UuidRoundTrip(id);
  }

  /** An id names its command and its VM. */
  lemma TaskTextIsUnique(c: Command, d: Command, x: Uuid, y: Uuid)
    requires TaskText(c, x) == TaskText(d, y)
    ensures c == d && x == y
  {
    TaskTextParts(c, x);
    TaskTextParts(d, y);
    UuidRoundTrip(x);
    UuidRoundTrip(y);
    assert CommandText(c) == CommandText(d);
  }
}
