/** The strings that replicas sign (the `format!` calls in src/pbft.rs), and the proof that
    a signed string stands for one datum only: it can be read back. */
module Encoding {
  import opened Messages

  function Digit(d: nat): (c: char)
    requires d < 10
  {
    "0123456789"[d]
  }

  /** Decimal printing of an unsigned integer. */
  function Decimal(n: nat): string {
    if n < 10 then [Digit(n)] else Decimal(n / 10) + [Digit(n % 10)]
  }

  function Items(bytes: seq<Byte>): string {
    if |bytes| == 0 then ""
    else if |bytes| == 1 then Decimal(bytes[0] as nat)
    else Decimal(bytes[0] as nat) + ", " + Items(bytes[1..])
  }

  /** Debug printing of a byte array. */
  function DebugBytes(bytes: seq<Byte>): string {
    "[" + Items(bytes) + "]"
  }

  const COMMIT_SUFFIX := "-commit"
  const NEW_VIEW_TAIL := "new-view"
  const VIEW_CHANGE_TAIL := "view-change"

  function Tail(data: SignedData): string {
    match data
    case PrepareData(_, s, d) => Decimal(s) + "-" + DebugBytes(d.bytes)
    case CommitData(_, s, d) => Decimal(s) + "-" + (DebugBytes(d.bytes) + COMMIT_SUFFIX)
    case CheckpointData(_, d) => DebugBytes(d.bytes)
    case NewViewData(_) => NEW_VIEW_TAIL
    case ViewChangeData(_) => VIEW_CHANGE_TAIL
  }

  function Head(data: SignedData): nat {
    match data
    case PrepareData(v, _, _) => v
    case CommitData(v, _, _) => v
    case CheckpointData(s, _) => s
    case NewViewData(v) => v
    case ViewChangeData(v) => v
  }

  /** The string that is signed. */
  function Encode(data: SignedData): string {
    Decimal(Head(data)) + "-" + Tail(data)
  }

  // ---------- Reading numbers ----------

  predicate IsDigit(c: char) {
    '0' <= c <= '9'
  }

  predicate AllDigits(s: string) {
    forall i :: 0 <= i < |s| ==> IsDigit(s[i])
  }

  /** The value of a string of digits, most significant first. */
  function Value(s: string): nat
    requires AllDigits(s)
  {
    if s == "" then 0 else Value(s[..|s| - 1]) * 10 + (s[|s| - 1] as int - '0' as int)
  }

  /** A number as it is printed: digits, without a leading zero unless it is 0. */
  predicate IsNumeral(s: string) {
    |s| > 0 && AllDigits(s) && (s[0] == '0' ==> |s| == 1)
  }

  lemma DigitValue(d: nat)
    requires d < 10
    ensures IsDigit(Digit(d)) && Digit(d) as int - '0' as int == d
  {
    assert d in {0, 1, 2, 3, 4, 5, 6, 7, 8, 9};
  }

  /** A printed number reads as the number. */
  lemma {:induction false} DecimalReads(n: nat)
    ensures IsNumeral(Decimal(n)) && Value(Decimal(n)) == n
    ensures Decimal(n) == "0" <==> n == 0
  {
    DigitValue(n % 10);
    var s := Decimal(n);
    if n < 10 {
      assert s[..0] == "";
    } else {
      DecimalReads(n / 10);
      assert s[..|s| - 1] == Decimal(n / 10) && s[0] == Decimal(n / 10)[0];
    }
  }

  lemma {:induction false} NumeralPositive(s: string)
    requires IsNumeral(s) && s != "0"
    ensures Value(s) > 0
  {
    if |s| > 1 {
      assert s[..|s| - 1][0] == s[0];
      NumeralPositive(s[..|s| - 1]);
    } else {
      assert s[..0] == "" && s == [s[0]];
    }
  }

  /** And each numeral is what its value is printed as. */
  lemma {:induction false} NumeralPrints(s: string)
    requires IsNumeral(s)
    ensures Decimal(Value(s)) == s
  {
    var init, last := s[..|s| - 1], s[|s| - 1] as int - '0' as int;
    DigitValue(last);
    if |s| > 1 {
      assert init[0] == s[0];
      NumeralPositive(init);
      NumeralPrints(init);
      assert Value(s) / 10 == Value(init) && Value(s) % 10 == last;
    }
    assert s == init + [s[|s| - 1]];
  }

  // ---------- Reading signed strings ----------

  /** Cuts a string at the first occurrence of a separator. */
  function Cut(c: char, s: string): Option<(string, string)> {
    if s == "" then None
    else if s[0] == c then Some(("", s[1..]))
    else
      match Cut(c, s[1..])
      case None => None
      case Some(parts) => Some(([s[0]] + parts.0, parts.1))
  }

  lemma {:induction false} CutJoins(c: char, a: string, b: string)
    requires c !in a
    ensures Cut(c, a + [c] + b) == Some((a, b))
  {
    var s := a + [c] + b;
    if a == "" {
      assert s[1..] == b;
    } else {
      assert s[1..] == a[1..] + [c] + b;
      CutJoins(c, a[1..], b);
      assert a == [a[0]] + a[1..];
    }
  }

  lemma {:induction false} CutOnce(c: char, s: string)
    ensures Cut(c, s).None? <==> c !in s
    ensures Cut(c, s).Some? ==> var (a, b) := Cut(c, s).value; c !in a && s == a + [c] + b
  {
    if s != "" {
      CutOnce(c, s[1..]);
      assert s == [s[0]] + s[1..];
    }
  }

  function ReadNumber(s: string): Option<nat> {
    if IsNumeral(s) then Some(Value(s)) else None
  }

  function ReadByte(s: string): Option<Byte> {
    if IsNumeral(s) && Value(s) < 256 then Some(Value(s) as Byte) else None
  }

  /** One or more numbers below 256, separated by a comma and a blank. */
  function ReadItems(s: string): Option<seq<Byte>>
    decreases |s|
  {
    CutOnce(',', s);
    match Cut(',', s)
    case None => (match ReadByte(s) case Some(b) => Some([b]) case None => None)
    case Some((first, rest)) =>
      if rest == "" || rest[0] != ' ' then None
      else
        match (ReadByte(first), ReadItems(rest[1..]))
        case (Some(b), Some(bytes)) => Some([b] + bytes)
        case _ => None
  }

  /** A list in brackets, and what follows it. */
  function ReadArray(s: string): Option<(Hash, string)> {
    if s == "" || s[0] != '[' then None
    else
      match Cut(']', s[1..])
      case None => None
      case Some((items, rest)) =>
        if items == "" then Some((Hash([]), rest))
        else match ReadItems(items) case Some(bytes) => Some((Hash(bytes), rest)) case None => None
  }

  /** `number-[digest]`, perhaps followed by `-commit`. */
  function ReadVote(view: nat, s: string): Option<SignedData> {
    match Cut('-', s)
    case None => None
    case Some((number, rest)) =>
      match (ReadNumber(number), ReadArray(rest))
      case (Some(sequence), Some((digest, end))) =>
        if end == "" then Some(PrepareData(view, sequence, digest))
        else if end == "-commit" then Some(CommitData(view, sequence, digest))
        else None
      case _ => None
  }

  function ReadTail(number: nat, s: string): Option<SignedData> {
    if s == "new-view" then Some(NewViewData(number))
    else if s == "view-change" then Some(ViewChangeData(number))
    else
      match ReadArray(s)
      case Some((digest, end)) => if end == "" then Some(CheckpointData(number, digest)) else None
      case None => ReadVote(number, s)
  }

  /** What a signed string says: a number, a dash, and the rest. */
  function Decode(text: string): Option<SignedData> {
    match Cut('-', text)
    case None => None
    case Some((number, rest)) => (match ReadNumber(number) case Some(n) => ReadTail(n, rest) case None => None)
  }

  // ---------- Reading back what is printed ----------

  lemma DecimalReadsAlone(n: nat)
    ensures ReadNumber(Decimal(n)) == Some(n) && forall c :: c in Decimal(n) ==> IsDigit(c)
    ensures n < 256 ==> ReadByte(Decimal(n)) == Some(n as Byte)
  {
    DecimalReads(n);
  }

  lemma {:induction false} ItemsChars(bytes: seq<Byte>)
    requires |bytes| > 0
    ensures Items(bytes) != "" && ']' !in Items(bytes)
    decreases |bytes|
  {
    DecimalReads(bytes[0] as nat);
    if |bytes| > 1 {
      ItemsChars(bytes[1..]);
    }
  }

  lemma LastItemReads(b: Byte)
    ensures ReadItems(Decimal(b as nat)) == Some([b])
  {
    DecimalReadsAlone(b as nat);
    CutOnce(',', Decimal(b as nat));
  }

  lemma FirstItemReads(b: Byte, rest: string, bytes: seq<Byte>)
    requires ReadItems(rest) == Some(bytes)
    ensures ReadItems(Decimal(b as nat) + ", " + rest) == Some([b] + bytes)
  {
    hide Decimal;
    var first, more := Decimal(b as nat), " " + rest;
    DecimalReadsAlone(b as nat);
    assert first + ", " + rest == first + [','] + more;
    CutJoins(',', first, more);
    assert more[1..] == rest;
  }

  /** A printed list of numbers reads as the list. */
  lemma {:induction false} ItemsRead(bytes: seq<Byte>)
    requires |bytes| > 0
    ensures ReadItems(Items(bytes)) == Some(bytes)
    decreases |bytes|
  {
    hide ReadItems, Decimal;
    if |bytes| == 1 {
      LastItemReads(bytes[0]);
      assert bytes == [bytes[0]];
    } else {
      ItemsRead(bytes[1..]);
      FirstItemReads(bytes[0], Items(bytes[1..]), bytes[1..]);
      assert bytes == [bytes[0]] + bytes[1..];
    }
  }

  /** A printed byte array, followed by anything, reads as the array and what follows. */
  lemma DebugBytesRead(d: Hash, rest: string)
    ensures ReadArray(DebugBytes(d.bytes) + rest) == Some((d, rest))
  {
    if |d.bytes| > 0 {
      ItemsRead(d.bytes);
      ItemsChars(d.bytes);
    }
    var s := DebugBytes(d.bytes) + rest;
    assert s[1..] == Items(d.bytes) + [']'] + rest;
    CutJoins(']', Items(d.bytes), rest);
  }

  lemma VoteReads(view: nat, s: nat, d: Hash, end: string, tail: string)
    requires tail == Decimal(s) + "-" + (DebugBytes(d.bytes) + end)
    ensures end == "" ==> ReadTail(view, tail) == Some(PrepareData(view, s, d))
    ensures end == "-commit" ==> ReadTail(view, tail) == Some(CommitData(view, s, d))
  {
    DecimalReads(s);
    DecimalReadsAlone(s);
    DebugBytesRead(d, end);
    assert tail == Decimal(s) + ['-'] + (DebugBytes(d.bytes) + end);
    CutJoins('-', Decimal(s), DebugBytes(d.bytes) + end);
    assert IsDigit(tail[0]);
    assert ReadArray(tail).None?;
  }

  lemma TailReads(data: SignedData)
    ensures ReadTail(Head(data), Tail(data)) == Some(data)
  {
    match data
    case PrepareData(v, s, d) =>
      assert DebugBytes(d.bytes) + "" == DebugBytes(d.bytes);
      VoteReads(v, s, d, "", Tail(data));
    case CommitData(v, s, d) => VoteReads(v, s, d, "-commit", Tail(data));
    case CheckpointData(s, d) =>
      DebugBytesRead(d, "");
      assert DebugBytes(d.bytes) + "" == DebugBytes(d.bytes);
      assert Tail(data)[0] == '[';
    case NewViewData(v) =>
    case ViewChangeData(v) =>
  }

  /** Every signed string reads back as the datum it was printed from. */
  lemma DecodeEncode(data: SignedData)
    ensures Decode(Encode(data)) == Some(data)
  {
    DecimalReadsAlone(Head(data));
    assert Encode(data) == Decimal(Head(data)) + ['-'] + Tail(data);
    CutJoins('-', Decimal(Head(data)), Tail(data));
    TailReads(data);
  }

  // ---------- Nothing else is read ----------

  lemma ByteReadIsPrinted(s: string)
    requires ReadByte(s).Some?
    ensures s == Decimal(ReadByte(s).value as nat)
  {
    NumeralPrints(s);
  }

  lemma PrintedLast(b: Byte)
    ensures Items([b]) == Decimal(b as nat)
  {
  }

  lemma PrintedFirst(first: string, rest: string, b: Byte, bytes: seq<Byte>)
    requires first == Decimal(b as nat) && rest == Items(bytes) && |bytes| > 0
    ensures first + ", " + rest == Items([b] + bytes)
  {
    hide Decimal;
    assert ([b] + bytes)[1..] == bytes;
  }

  lemma {:induction false} ReadItemsArePrinted(s: string)
    requires ReadItems(s).Some?
    ensures s == Items(ReadItems(s).value) && |ReadItems(s).value| > 0
    decreases |s|
  {
    hide Items, Decimal, ReadByte, Cut;
    CutOnce(',', s);
    if Cut(',', s).None? {
      ByteReadIsPrinted(s);
      PrintedLast(ReadByte(s).value);
    } else {
      var (first, rest) := Cut(',', s).value;
      ByteReadIsPrinted(first);
      ReadItemsArePrinted(rest[1..]);
      PrintedFirst(first, rest[1..], ReadByte(first).value, ReadItems(rest[1..]).value);
      assert s == first + [','] + ([rest[0]] + rest[1..]);
      assert s == first + ", " + rest[1..];
    }
  }

  lemma ReadArrayIsPrinted(s: string)
    requires ReadArray(s).Some?
    ensures s == DebugBytes(ReadArray(s).value.0.bytes) + ReadArray(s).value.1
  {
    CutOnce(']', s[1..]);
    var (items, rest) := Cut(']', s[1..]).value;
    if items != "" {
      ReadItemsArePrinted(items);
    }
    assert s == ['['] + s[1..];
    assert s == "[" + items + "]" + rest;
  }

  lemma ReadVoteIsPrinted(view: nat, s: string)
    requires ReadVote(view, s).Some?
    ensures var data := ReadVote(view, s).value; Head(data) == view && Tail(data) == s
  {
    CutOnce('-', s);
    var (number, rest) := Cut('-', s).value;
    NumeralPrints(number);
    ReadArrayIsPrinted(rest);
    var (digest, end) := ReadArray(rest).value;
    assert end == "" ==> DebugBytes(digest.bytes) + end == DebugBytes(digest.bytes);
  }

  lemma ReadTailIsPrinted(number: nat, s: string)
    requires ReadTail(number, s).Some?
    ensures var data := ReadTail(number, s).value; Head(data) == number && Tail(data) == s
  {
    if s != "new-view" && s != "view-change" {
      if ReadArray(s).Some? {
        ReadArrayIsPrinted(s);
        var d := ReadArray(s).value.0;
        assert DebugBytes(d.bytes) + "" == DebugBytes(d.bytes);
      } else {
        ReadVoteIsPrinted(number, s);
      }
    }
  }

  /** The signed strings are exactly those that can be read, each standing for what it reads as. */
  lemma DecodesExactly(text: string, data: SignedData)
    ensures Decode(text) == Some(data) <==> text == Encode(data)
  {
    DecodeEncode(data);
    if Decode(text) == Some(data) {
      CutOnce('-', text);
      var (number, rest) := Cut('-', text).value;
      NumeralPrints(number);
      ReadTailIsPrinted(Value(number), rest);
    }
  }

  /** Signed strings are unambiguous: each family is injective in its numbers and digest
      bytes, and no string belongs to two families. */
  lemma EncodeInjective(a: SignedData, b: SignedData)
    requires Encode(a) == Encode(b)
    ensures a == b
  {
    DecodeEncode(a);
    DecodeEncode(b);
  }

  lemma PrintedNumbers()
    ensures Decimal(0) == "0" && Decimal(1) == "1" && Decimal(7) == "7" && Decimal(46) == "46"
    ensures Items([7, 46]) == "7, 46" && Items([0]) == "0" && Items([]) == ""
  {
    assert [7, 46][1..] == [46];
  }

  /** One string of each family. */
  lemma Printed()
    ensures Encode(PrepareData(0, 1, Hash([7, 46]))) == "0-1-[7, 46]"
    ensures Encode(CommitData(7, 46, Hash([0]))) == "7-46-[0]-commit"
    ensures Encode(CheckpointData(46, Hash([]))) == "46-[]"
    ensures Encode(NewViewData(1)) == "1-new-view"
    ensures Encode(ViewChangeData(7)) == "7-view-change"
  {
    hide Decimal, Items;
    PrintedNumbers();
  }
}
