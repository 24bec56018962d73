/** The text form of an action goal id, and the parser that reads it back. */
module GoalId {
  import opened RecorderTypes

  const DASH_AFTER: set<nat> := {4, 6, 8, 10}

  function HexDigit(v: nat): (c: char)
    requires v < 16
  {
    "0123456789abcdef"[v]
  }

  function HexValue(c: char): Option<nat>
  {
    if '0' <= c <= '9' then Some((c - '0') as nat)
    else if 'a' <= c <= 'f' then Some((c - 'a') as nat + 10)
    else None
  }

  lemma HexDigits(v: nat)
    requires v < 16
    ensures HexValue(HexDigit(v)) == Some(v)
  {
  }

  /** The text after the first `n` bytes, dashes included. */
  function FormatPrefix(uuid: Uuid, n: nat): string
    requires n <= 16
  {
    if n == 0 then ""
    else
      var b := uuid[n - 1] as nat;
      FormatPrefix(uuid, n - 1) + [HexDigit(b / 16), HexDigit(b % 16)]
      + (if n in DASH_AFTER then "-" else "")
  }

  function FormatGoalId(uuid: Uuid): string {
    FormatPrefix(uuid, 16)
  }

  /** Where byte `i` starts in an 8-4-4-4-12 text. */
  function Offset(i: nat): nat {
    2 * i + (if i >= 4 then 1 else 0) + (if i >= 6 then 1 else 0)
    + (if i >= 8 then 1 else 0) + (if i >= 10 then 1 else 0)
  }

  /** The 8-4-4-4-12 shape of section 4 of RFC 9562, in lower case. */
  predicate WellShaped(text: string) {
    && |text| == 36
    && text[8] == '-' && text[13] == '-' && text[18] == '-' && text[23] == '-'
    && forall i :: 0 <= i < 36 && i !in {8, 13, 18, 23} ==> HexValue(text[i]).Some?
  }

  function ByteAt(text: string, i: nat): (b: Byte)
    requires WellShaped(text) && i < 16
  {
    assert Offset(i) + 1 < 36 && Offset(i) !in {8, 13, 18, 23} && Offset(i) + 1 !in {8, 13, 18, 23};
    (HexValue(text[Offset(i)]).value * 16 + HexValue(text[Offset(i) + 1]).value) as Byte
  }

  function ParseGoalId(text: string): Option<Uuid> {
    if WellShaped(text) then Some(seq(16, i requires 0 <= i < 16 => ByteAt(text, i))) else None
  }

  lemma {:induction false} PrefixLength(uuid: Uuid, n: nat)
    requires n <= 16
    ensures |FormatPrefix(uuid, n)| == Offset(n)
  {
    if n > 0 {
      PrefixLength(uuid, n - 1);
    }
  }

  lemma {:induction false} ByteShown(uuid: Uuid, n: nat, i: nat)
    requires i < n <= 16
    ensures Offset(i) + 1 < Offset(n) == |FormatPrefix(uuid, n)|
    ensures FormatPrefix(uuid, n)[Offset(i)] == HexDigit(uuid[i] as nat / 16)
    ensures FormatPrefix(uuid, n)[Offset(i) + 1] == HexDigit(uuid[i] as nat % 16)
  {
    PrefixLength(uuid, n);
    PrefixLength(uuid, n - 1);
    if i < n - 1 {
      ByteShown(uuid, n - 1, i);
    }
  }

  lemma {:induction false} DashShown(uuid: Uuid, n: nat, d: nat)
    requires d in DASH_AFTER && d <= n <= 16
    ensures 1 <= Offset(d) <= Offset(n) == |FormatPrefix(uuid, n)|
    ensures FormatPrefix(uuid, n)[Offset(d) - 1] == '-'
  {
    PrefixLength(uuid, n);
    PrefixLength(uuid, n - 1);
    if d < n {
      DashShown(uuid, n - 1, d);
    }
  }

  /** Every byte sits at its offset, and every other position of the text holds a dash. */
  lemma OffsetsCover(i: nat)
    requires i < 36 && i !in {8, 13, 18, 23}
    ensures exists k :: 0 <= k < 16 && (i == Offset(k) || i == Offset(k) + 1)
  {
    var k := (i - (if i > 23 then 4 else if i > 18 then 3 else if i > 13 then 2 else if i > 8 then 1 else 0)) / 2;
    assert 0 <= k < 16 && (i == Offset(k) || i == Offset(k) + 1);
  }

  lemma DashesShown(uuid: Uuid)
    ensures |FormatGoalId(uuid)| == 36
    ensures forall i :: i in {8, 13, 18, 23} ==> FormatGoalId(uuid)[i] == '-'
  {
    PrefixLength(uuid, 16);
    DashShown(uuid, 16, 4);
    DashShown(uuid, 16, 6);
    DashShown(uuid, 16, 8);
    DashShown(uuid, 16, 10);
  }

  lemma FormatIsWellShaped(uuid: Uuid)
    ensures WellShaped(FormatGoalId(uuid))
  {
    DashesShown(uuid);
    var text := FormatGoalId(uuid);
    forall i | 0 <= i < 36 && i !in {8, 13, 18, 23} ensures HexValue(text[i]).Some? {
      OffsetsCover(i);
      var k :| 0 <= k < 16 && (i == Offset(k) || i == Offset(k) + 1);
      ByteShown(uuid, 16, k);
      HexDigits(uuid[k] as nat / 16);
      HexDigits(uuid[k] as nat % 16);
    }
  }

  /** Byte `i` stands as two lower-case hex digits, the high one first, at its place in the text. */
  lemma ByteText(uuid: Uuid, i: nat)
    requires i < 16
    ensures |FormatGoalId(uuid)| == 36
    ensures var at := 2 * i + (if i < 4 then 0 else if i < 6 then 1 else if i < 8 then 2 else if i < 10 then 3 else 4);
      && FormatGoalId(uuid)[at] == "0123456789abcdef"[uuid[i] as nat / 16]
      && FormatGoalId(uuid)[at + 1] == "0123456789abcdef"[uuid[i] as nat % 16]
  {
    ByteShown(uuid, 16, i);
  }

  /** The text of a goal id parses back to the same sixteen bytes. */
  lemma ParseFormat(uuid: Uuid)
    ensures ParseGoalId(FormatGoalId(uuid)) == Some(uuid)
  {
    FormatIsWellShaped(uuid);
    var text := FormatGoalId(uuid);
    forall i | 0 <= i < 16 ensures ByteAt(text, i) == uuid[i] {
      ByteShown(uuid, 16, i);
      HexDigits(uuid[i] as nat / 16);
      HexDigits(uuid[i] as nat % 16);
    }
    assert ParseGoalId(text).value == uuid;
  }

  lemma ByteSplits(hi: nat, lo: nat)
    requires hi < 16 && lo < 16
    ensures (hi * 16 + lo) / 16 == hi && (hi * 16 + lo) % 16 == lo
  {
  }

  lemma ByteDigits(text: string, k: nat)
    requires WellShaped(text) && k < 16
    ensures Offset(k) + 1 < 36
    ensures HexDigit(ByteAt(text, k) as nat / 16) == text[Offset(k)]
    ensures HexDigit(ByteAt(text, k) as nat % 16) == text[Offset(k) + 1]
  {
    var b := ByteAt(text, k);
    HexOfValue(text[Offset(k)]);
    HexOfValue(text[Offset(k) + 1]);
    ByteSplits(HexValue(text[Offset(k)]).value, HexValue(text[Offset(k) + 1]).value);
  }

  lemma FormatParseAt(text: string, i: nat)
    requires WellShaped(text) && i < 36 && i !in {8, 13, 18, 23}
    ensures |FormatGoalId(ParseGoalId(text).value)| == 36
    ensures FormatGoalId(ParseGoalId(text).value)[i] == text[i]
  {
    var uuid := ParseGoalId(text).value;
    DashesShown(uuid);
    OffsetsCover(i);
    var k :| 0 <= k < 16 && (i == Offset(k) || i == Offset(k) + 1);
    assert uuid[k] == ByteAt(text, k);
    ByteShown(uuid, 16, k);
    ByteDigits(text, k);
  }

  /** And every well-shaped text is the text of exactly the bytes it parses to. */
  lemma FormatParse(text: string)
    requires WellShaped(text)
    ensures FormatGoalId(ParseGoalId(text).value) == text
  {
    var again := FormatGoalId(ParseGoalId(text).value);
    DashesShown(ParseGoalId(text).value);
    forall i | 0 <= i < 36 ensures again[i] == text[i] {
      if i !in {8, 13, 18, 23} {
        FormatParseAt(text, i);
      }
    }
  }

  lemma HexOfValue(c: char)
    requires HexValue(c).Some?
    ensures HexValue(c).value < 16 && HexDigit(HexValue(c).value) == c
  {
  }

  /** The formatting loop: two hex digits per byte, a dash after bytes 4, 6, 8 and 10. */
  method Format(uuid: Uuid) returns (text: string)
    ensures text == FormatGoalId(uuid)
    ensures ParseGoalId(text) == Some(uuid)
  {
    var dashAfter: seq<nat> := [4, 6, 8, 10];
    text := "";
    for i := 0 to 16
      invariant text == FormatPrefix(uuid, i)
    {
      var b := uuid[i] as nat;
      text := text + [HexDigit(b / 16), HexDigit(b % 16)];
      ghost var digits := text;
      for d := 0 to 4
        invariant text == digits + (if i + 1 in dashAfter[..d] then "-" else "")
      {
        if i + 1 == dashAfter[d] {
          text := text + "-";
        }
      }
      assert dashAfter[..4] == dashAfter;
    }
    ParseFormat(uuid);
  }
}
