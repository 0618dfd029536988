/** Values shared by every module: optional values, and the text the system
    prints and reads back: decimals, hexadecimal, UUIDs and separated lists. */
module Text {

  datatype Option<+T> = None | Some(value: T)

  // ---------------------------------------------------------------- decimals

  function Digit(d: nat): char
    requires d < 10
  {
    '0' + d as char
  }

  /** Python's `str(n)` for a non-negative integer. */
  function Decimal(n: nat): (s: string)
    ensures s != "" && forall c :: c in s ==> '0' <= c <= '9'
  {
    if n < 10 then [Digit(n)] else Decimal(n / 10) + [Digit(n % 10)]
  }

  /** The number a text of digits stands for, by place value. */
  function Reads(s: string): int {
    if s == "" then 0 else 10 * Reads(s[..|s| - 1]) + (s[|s| - 1] as int - '0' as int)
  }

  /** A printed number reads back as itself, and has no leading zero unless it is zero. */
  lemma {:induction false} DecimalReads(n: nat)
    ensures Reads(Decimal(n)) == n
    ensures n > 0 ==> Decimal(n)[0] != '0'
  {
    var s := Decimal(n);
    if n < 10 {
      assert s[..0] == "";
    } else {
      DecimalReads(n / 10);
      assert s[..|s| - 1] == Decimal(n / 10);
    }
  }

  lemma DecimalInjective(a: nat, b: nat)
    requires Decimal(a) == Decimal(b)
    ensures a == b
  {
    DecimalReads(a);
    DecimalReads(b);
  }

  // ------------------------------------------------------------- hexadecimal

  function HexDigit(d: nat): (c: char)
    requires d < 16
    ensures '0' <= c <= '9' || 'a' <= c <= 'f'
  {
    if d < 10 then '0' + d as char else 'a' + (d - 10) as char
  }

  function HexValue(c: char): (v: Option<nat>)
    ensures v.Some? ==> v.value < 16
  {
    if '0' <= c <= '9' then Some((c - '0') as nat)
    else if 'a' <= c <= 'f' then Some((c - 'a') as nat + 10)
    else if 'A' <= c <= 'F' then Some((c - 'A') as nat + 10)
    else None
  }

  /** The sixteen digits, in either letter case, and nothing else. */
  lemma HexValues(c: char, v: nat)
    ensures HexValue(c) == Some(v) <==> v < 16 && (c == "0123456789abcdef"[v] || c == "0123456789ABCDEF"[v])
  {
  }

  function Pow16(width: nat): (p: nat)
    ensures p > 0
  {
    if width == 0 then 1 else 16 * Pow16(width - 1)
  }

  /** The `width` low hexadecimal digits of `n`, most significant first. */
  function Hex(n: nat, width: nat): (s: string)
    ensures |s| == width
    ensures forall c :: c in s ==> '0' <= c <= '9' || 'a' <= c <= 'f'
  {
    if width == 0 then "" else Hex(n / 16, width - 1) + [HexDigit(n % 16)]
  }

  /** One more digit after a numeral. */
  function Append(high: Option<nat>, low: Option<nat>): Option<nat> {
    if high.None? || low.None? then None else Some(16 * high.value + low.value)
  }

  /** The value of a hexadecimal numeral, `None` when some character is not a digit. */
  function UnHex(s: string): (v: Option<nat>)
    ensures v.Some? ==> v.value < Pow16(|s|)
  {
    if s == "" then Some(0) else Append(UnHex(s[..|s| - 1]), HexValue(s[|s| - 1]))
  }

  lemma {:induction false} UnHexHex(n: nat, width: nat)
    requires n < Pow16(width)
    ensures UnHex(Hex(n, width)) == Some(n)
  {
    if width > 0 {
      UnHexHex(n / 16, width - 1);
      var s := Hex(n, width);
      assert s[..|s| - 1] == Hex(n / 16, width - 1);
      assert HexValue(HexDigit(n % 16)) == Some(n % 16);
    }
  }

  /** Two numerals agree up to the letter case of their digits. */
  ghost predicate SameDigits(s: string, t: string) {
    |s| == |t| && forall i :: 0 <= i < |s| ==> HexValue(s[i]).Some? && HexValue(s[i]) == HexValue(t[i])
  }

  lemma SameDigitsLast(s: string, t: string)
    requires s != "" && |s| == |t|
    ensures SameDigits(s, t) <==> && SameDigits(s[..|s| - 1], t[..|s| - 1])
                                  && HexValue(s[|s| - 1]).Some? && HexValue(s[|s| - 1]) == HexValue(t[|s| - 1])
  {
    var front, begin := s[..|s| - 1], t[..|s| - 1];
    assert forall i :: 0 <= i < |s| - 1 ==> front[i] == s[i] && begin[i] == t[i];
  }

  lemma HexLast(n: nat, width: nat)
    requires width > 0
    ensures Hex(n, width)[..width - 1] == Hex(n / 16, width - 1)
    ensures HexValue(Hex(n, width)[width - 1]) == Some(n % 16)
  {
    assert Hex(n, width)[width - 1] == HexDigit(n % 16);
  }

  lemma AppendSplits(high: Option<nat>, low: Option<nat>, n: nat)
    requires low.Some? ==> low.value < 16
    ensures Append(high, low) == Some(n) <==> high == Some(n / 16) && low == Some(n % 16)
  {
  }

  /** A text reads as `n` exactly when it spells the digits of `n`. */
  lemma {:induction false} UnHexExactly(s: string, n: nat)
    requires n < Pow16(|s|)
    ensures UnHex(s) == Some(n) <==> SameDigits(s, Hex(n, |s|))
  {
    if s != "" {
      UnHexExactly(s[..|s| - 1], n / 16);
      AppendSplits(UnHex(s[..|s| - 1]), HexValue(s[|s| - 1]), n);
      HexLast(n, |s|);
      SameDigitsLast(s, Hex(n, |s|));
    }
  }

  // ------------------------------------------------------------------- UUIDs

  /** A UUID is its 128-bit value; the order of values is the order PostgreSQL sorts by. */
  type Uuid = n: nat | n < Pow16(32) witness 0

  /** Python's `str(uuid)`: 32 lower-case digits grouped 8-4-4-4-12. */
  function UuidText(u: Uuid): (s: string)
    ensures |s| == 36
    ensures forall c :: c in s ==> '0' <= c <= '9' || 'a' <= c <= 'f' || c == '-'
  {
    var d := Hex(u, 32);
    assert forall i :: 0 <= i < 32 ==> d[i] in d;
    d[..8] + "-" + d[8..12] + "-" + d[12..16] + "-" + d[16..20] + "-" + d[20..]
  }

  /** The printed form: dashes at the four places between the groups and nowhere else. */
  lemma UuidLayout(u: Uuid)
    ensures forall i :: 0 <= i < 36 ==> (UuidText(u)[i] == '-' <==> i in {8, 13, 18, 23})
  {
    var d := Hex(u, 32);
    assert forall i :: 0 <= i < 32 ==> d[i] in d;
  }

  function DropDashes(s: string): string {
    if s == "" then "" else (if s[0] == '-' then "" else [s[0]]) + DropDashes(s[1..])
  }

  /** Python's `UUID(text)`: dashes are ignored wherever they stand, 32 digits must remain. */
  function ParseUuid(s: string): Option<Uuid> {
    var digits := DropDashes(s);
    if |digits| == 32 then UnHex(digits) else None
  }

  lemma {:induction false} DropDashesConcat(a: string, b: string)
    ensures DropDashes(a + b) == DropDashes(a) + DropDashes(b)
  {
    if a == "" {
      assert a + b == b;
    } else {
      var head := if a[0] == '-' then "" else [a[0]];
      calc {
        DropDashes(a + b);
        { assert (a + b)[1..] == a[1..] + b; }
        head + DropDashes(a[1..] + b);
        { DropDashesConcat(a[1..], b); }
        head + (DropDashes(a[1..]) + DropDashes(b));
        head + DropDashes(a[1..]) + DropDashes(b);
      }
    }
  }

  lemma {:induction false} DropDashesIdentity(a: string)
    requires '-' !in a
    ensures DropDashes(a) == a
  {
    if a != "" {
      DropDashesIdentity(a[1..]);
    }
  }

  lemma DashDropped()
    ensures DropDashes("-") == ""
  {
    assert "-"[1..] == "";
  }

  lemma DropDashesGroup(a: string, group: string)
    requires '-' !in group
    ensures DropDashes(a + "-" + group) == DropDashes(a) + group
  {
    calc {
      DropDashes(a + "-" + group);
      { DropDashesConcat(a + "-", group); }
      DropDashes(a + "-") + DropDashes(group);
      { DropDashesConcat(a, "-"); DropDashesIdentity(group); }
      DropDashes(a) + DropDashes("-") + group;
      { DashDropped(); }
      DropDashes(a) + group;
    }
  }

  /** Reading back a printed UUID gives the UUID. */
  lemma ParseUuidText(u: Uuid)
    ensures ParseUuid(UuidText(u)) == Some(u)
  {
    var d := Hex(u, 32);
    var a, b, c, e, f := d[..8], d[8..12], d[12..16], d[16..20], d[20..];
    assert forall i :: 0 <= i < 32 ==> d[i] != '-' by {
      assert forall i :: 0 <= i < 32 ==> d[i] in d;
    }
    DropDashesIdentity(a);
    DropDashesGroup(a, b);
    DropDashesGroup(a + "-" + b, c);
    DropDashesGroup(a + "-" + b + "-" + c, e);
    DropDashesGroup(a + "-" + b + "-" + c + "-" + e, f);
    assert a + b + c + e + f == d;
    UnHexHex(u, 32);
  }

  /** A text parses as `u` exactly when what its dashes leave spells the 32 digits of `u`,
      in any letter case. */
  lemma ParseUuidExactly(s: string, u: Uuid)
    ensures ParseUuid(s) == Some(u) <==> SameDigits(DropDashes(s), Hex(u, 32))
  {
    if |DropDashes(s)| == 32 {
      UnHexExactly(DropDashes(s), u);
    }
  }

  lemma UuidTextInjective(u: Uuid, v: Uuid)
    requires UuidText(u) == UuidText(v)
    ensures u == v
  {
    ParseUuidText(u);
    ParseUuidText(v);
  }

  // --------------------------------------------------------- separated lists

  /** The position of the first `c` in `s`, or the length of `s` when there is none. */
  function Find(s: string, c: char): (i: nat)
    ensures i <= |s| && c !in s[..i]
    ensures i < |s| ==> s[i] == c
  {
    if s == "" || s[0] == c then 0 else
      var i := 1 + Find(s[1..], c);
      assert s[..i] == [s[0]] + s[1..][..i - 1];
      i
  }

  lemma FindUnique(s: string, c: char, i: nat)
    requires i < |s| && s[i] == c && c !in s[..i]
    ensures Find(s, c) == i
  {
    var j := Find(s, c);
    assert forall k :: 0 <= k < i ==> s[k] in s[..i];
    assert forall k :: 0 <= k < j ==> s[k] in s[..j];
  }

  /** Python's `s.split(c)`. */
  function Split(s: string, c: char): (parts: seq<string>)
    ensures |parts| > 0
  {
    var i := Find(s, c);
    if i == |s| then [s] else [s[..i]] + Split(s[i + 1..], c)
  }

  function Join(parts: seq<string>, c: char): string
    requires |parts| > 0
  {
    if |parts| == 1 then parts[0] else parts[0] + [c] + Join(parts[1..], c)
  }

  lemma SplitFirst(part: string, c: char, rest: string)
    requires c !in part
    ensures Split(part + [c] + rest, c) == [part] + Split(rest, c)
  {
    var s := part + [c] + rest;
    assert s[..|part|] == part && s[|part|] == c && s[|part| + 1..] == rest;
    FindUnique(s, c, |part|);
  }

  /** Splitting undoes joining when no part holds the separator. */
  lemma {:induction false} SplitJoin(parts: seq<string>, c: char)
    requires |parts| > 0
    requires forall p :: p in parts ==> c !in p
    ensures Split(Join(parts, c), c) == parts
  {
    if |parts| == 1 {
      assert c !in parts[0];
      assert [parts[0]] == parts;
    } else {
      SplitFirst(parts[0], c, Join(parts[1..], c));
      SplitJoin(parts[1..], c);
      assert [parts[0]] + parts[1..] == parts;
    }
  }

  // ------------------------------------------------------------- white space

  /** The characters Python's `str.strip()` removes. */
  predicate IsSpace(c: char) {
    || '\t' <= c <= '\r'
    || '\U{1c}' <= c <= ' '
    || c in ['\U{85}', '\U{a0}', '\U{1680}', '\U{2028}', '\U{2029}', '\U{202f}', '\U{205f}', '\U{3000}']
    || '\U{2000}' <= c <= '\U{200a}'
  }

  const SPACES :=
    "\t\n\U{b}\U{c}\r\U{1c}\U{1d}\U{1e}\U{1f} \U{85}\U{a0}\U{1680}"
    + "\U{2000}\U{2001}\U{2002}\U{2003}\U{2004}\U{2005}\U{2006}\U{2007}\U{2008}\U{2009}\U{200a}"
    + "\U{2028}\U{2029}\U{202f}\U{205f}\U{3000}"

  /** The same characters one by one. */
  lemma SpacesListed(c: char)
    ensures IsSpace(c) <==> c in SPACES
  {
  }

  function StripLeft(s: string): string {
    if s != "" && IsSpace(s[0]) then StripLeft(s[1..]) else s
  }

  function StripRight(s: string): string {
    if s != "" && IsSpace(s[|s| - 1]) then StripRight(s[..|s| - 1]) else s
  }

  /** Python's `s.strip()`. */
  function Strip(s: string): string {
    StripRight(StripLeft(s))
  }

  /** Nothing strippable is left at either end. */
  lemma {:induction false} StripRightClean(s: string)
    ensures StripRight(s) <= s
    ensures StripRight(s) == "" || !IsSpace(StripRight(s)[|StripRight(s)| - 1])
  {
    if s != "" && IsSpace(s[|s| - 1]) {
      StripRightClean(s[..|s| - 1]);
    }
  }

  lemma {:induction false} StripLeftClean(s: string)
    ensures StripLeft(s) == "" || !IsSpace(StripLeft(s)[0])
  {
    if s != "" && IsSpace(s[0]) {
      StripLeftClean(s[1..]);
    }
  }

  lemma StripClean(s: string)
    ensures var t := Strip(s); t == "" || (!IsSpace(t[0]) && !IsSpace(t[|t| - 1]))
  {
    StripLeftClean(s);
    StripRightClean(StripLeft(s));
  }

  predicate AllSpace(s: string) {
    forall c :: c in s ==> IsSpace(c)
  }

  lemma {:induction false} StripLeftPadded(left: string, s: string)
    requires AllSpace(left)
    requires s != "" && !IsSpace(s[0])
    ensures StripLeft(left + s) == s
  {
    if left == "" {
      assert left + s == s;
    } else {
      assert (left + s)[0] == left[0] && left[0] in left;
      assert (left + s)[1..] == left[1..] + s;
      StripLeftPadded(left[1..], s);
    }
  }

  lemma {:induction false} StripRightPadded(s: string, right: string)
    requires AllSpace(right)
    requires s != "" && !IsSpace(s[|s| - 1])
    ensures StripRight(s + right) == s
  {
    if right == "" {
      assert s + right == s;
    } else {
      var t := s + right;
      assert t[|t| - 1] == right[|right| - 1] && right[|right| - 1] in right;
      assert t[..|t| - 1] == s + right[..|right| - 1];
      StripRightPadded(s, right[..|right| - 1]);
    }
  }

  /** Stripping removes padding around a text that has no space at its ends. */
  lemma StripPadded(left: string, s: string, right: string)
    requires AllSpace(left) && AllSpace(right)
    requires s != "" && !IsSpace(s[0]) && !IsSpace(s[|s| - 1])
    ensures Strip(left + s + right) == s
  {
    assert left + s + right == left + (s + right);
    StripLeftPadded(left, s + right);
    StripRightPadded(s, right);
  }
}
