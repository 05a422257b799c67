/**
 * Memory blocks: a data block of words (a mutable array handed out live, copied by `clone`),
 * an instruction of four integer fields with its tab-separated text form, and an instruction
 * block of four instruction slots.
 */
module Blocks {
  import opened Wrappers
  import opened Exceptions
  import SimulationConstants

  class DataBlock {
    var words: array<int>

    /** The block keeps the array it is given, not a copy. */
    constructor(words: array<int>)
      ensures this.words == words
    {
      this.words := words;
    }

    /** A deep copy: a fresh block over a fresh array with the same words. */
    method Clone() returns (c: DataBlock)
      ensures fresh(c) && fresh(c.words)
      ensures c.words[..] == words[..]
    {
      var copy := new int[words.Length](i requires 0 <= i < words.Length reads this, words => words[i]);
      c := new DataBlock(copy);
    }

    /** The live array: writes through it change this block. */
    method GetWords() returns (a: array<int>)
      ensures a == words
    {
      a := words;
    }

    function GetWord(index: int): (r: Result<int, Fault>)
      reads this, words
      ensures r.Ok? <==> 0 <= index < words.Length
      ensures r.Ok? ==> r.value == words[index]
      ensures r.Err? ==> r.error == IndexOutOfBounds
    {
      if 0 <= index < words.Length then Ok(words[index]) else Err(IndexOutOfBounds)
    }

    method SetWords(words: array<int>)
      modifies this
      ensures this.words == words
    {
      this.words := words;
    }
  }

  /** A store into a clone leaves the original block as it was. */
  method StoreIntoClone(b: DataBlock, index: int, value: int) returns (c: DataBlock)
    requires 0 <= index < b.words.Length
    ensures fresh(c) && c.words[..] == b.words[..][index := value]
    ensures b.words[..] == old(b.words[..])
  {
    c := b.Clone();
    var ws := c.GetWords();
    ws[index] := value;
  }

  /** A store through `getWords` is a store into the block itself, as the store paths do it. */
  method StoreThroughWords(b: DataBlock, index: int, value: int)
    requires 0 <= index < b.words.Length
    modifies b.words
    ensures b.words[..] == old(b.words[..])[index := value]
    ensures b.GetWord(index) == Ok(value)
  {
    var ws := b.GetWords();
    ws[index] := value;
  }

  /** An instruction is its array of fields: opcode, then three operands. */
  datatype Instruction = Instruction(instructionFields: seq<int>)
  {
    predicate WellFormed() {
      |instructionFields| == SimulationConstants.TOTAL_INSTRUCTION_FIELDS
    }

    function GetField(fieldNumber: int): (f: int)
      requires 0 <= fieldNumber < |instructionFields|
      ensures f == instructionFields[fieldNumber]
    {
      instructionFields[fieldNumber]
    }

    function GetOperationCode(): (op: int)
      requires |instructionFields| > SimulationConstants.OPCODE_FIELD_NUMBER
      ensures op == instructionFields[0]
    {
      instructionFields[SimulationConstants.OPCODE_FIELD_NUMBER]
    }

    /** The four fields in decimal, separated by single tab characters. */
    function ToString(): string
      requires WellFormed()
    {
      IntToString(instructionFields[0]) + "\t" + IntToString(instructionFields[1]) + "\t"
        + IntToString(instructionFields[2]) + "\t" + IntToString(instructionFields[3])
    }
  }

  /** Four instruction slots; a slot is empty (Java `null`) at the end of a partial block. */
  type InstructionBlock = seq<Option<Instruction>>

  function GetInstruction(block: InstructionBlock, index: int): (r: Option<Instruction>)
    requires 0 <= index < |block|
    ensures r == block[index]
  {
    block[index]
  }

  // Decimal text of integers, as Java's string concatenation writes them.

  function DigitChar(d: int): char
    requires 0 <= d < 10
  {
    ('0' as int + d) as char
  }

  predicate IsDigit(c: char) {
    '0' <= c <= '9'
  }

  function NatToString(n: nat): (s: string)
    decreases n
  {
    if n < 10 then [DigitChar(n)] else NatToString(n / 10) + [DigitChar(n % 10)]
  }

  function IntToString(i: int): string {
    if i < 0 then "-" + NatToString(-i) else NatToString(i)
  }

  predicate AllDigits(s: string) {
    forall k :: 0 <= k < |s| ==> IsDigit(s[k])
  }

  function ParseDigits(s: string): nat
    requires AllDigits(s)
    decreases |s|
  {
    if |s| == 0 then 0
    else
      assert IsDigit(s[|s| - 1]);
      ParseDigits(s[..|s| - 1]) * 10 + (s[|s| - 1] as int - '0' as int)
  }

  /**
   * Reads the decimal text that `IntToString` writes: an optional `-` and then ASCII digits, with
   * no bound on the value. It is the reading half of the round trip, not `Integer.parseInt`:
   * that also takes a `+` sign and non-ASCII digits, and rejects values outside the int range.
   */
  function ParseInt(s: string): Option<int> {
    if |s| > 0 && s[0] == '-' then
      if |s| > 1 && AllDigits(s[1..]) then Some(-(ParseDigits(s[1..]) as int)) else None
    else if |s| > 0 && AllDigits(s) then Some(ParseDigits(s))
    else None
  }

  lemma {:induction false} NatToStringDigits(n: nat)
    ensures |NatToString(n)| > 0
    ensures AllDigits(NatToString(n))
    ensures ParseDigits(NatToString(n)) == n
    decreases n
  {
    if n >= 10 {
      NatToStringDigits(n / 10);
      var s := NatToString(n);
      assert s[..|s| - 1] == NatToString(n / 10);
    }
  }

  /** Decimal writing is undone by decimal reading; the text never contains a tab. */
  lemma IntToStringRoundTrip(i: int)
    ensures '\t' !in IntToString(i)
    ensures ParseInt(IntToString(i)) == Some(i)
  {
    if i < 0 {
      NatToStringDigits(-i);
      DigitsHaveNoTab(NatToString(-i));
      assert IntToString(i) == ['-'] + NatToString(-i);
      assert IntToString(i)[1..] == NatToString(-i);
    } else {
      NatToStringDigits(i);
      DigitsHaveNoTab(NatToString(i));
    }
  }

  lemma DigitsHaveNoTab(s: string)
    requires AllDigits(s)
    ensures '\t' !in s
  {
    assert forall k :: 0 <= k < |s| ==> s[k] != '\t';
  }

  /**
   * Cuts a string at every occurrence of `sep`, keeping empty pieces (also trailing ones, which
   * Java's `String.split` would drop); there is always at least one piece. It is the reader of
   * the tab-separated text `Instruction.toString` writes, which the program itself never reads.
   */
  function Split(s: string, sep: char): (parts: seq<string>)
    ensures |parts| > 0
    decreases |s|
  {
    if |s| == 0 then [""]
    else if s[0] == sep then [""] + Split(s[1..], sep)
    else var rest := Split(s[1..], sep); [[s[0]] + rest[0]] + rest[1..]
  }

  lemma {:induction false} SplitWithoutSeparator(a: string, sep: char)
    requires sep !in a
    ensures Split(a, sep) == [a]
    decreases |a|
  {
    if |a| > 0 {
      SplitWithoutSeparator(a[1..], sep);
      assert [a[0]] + a[1..] == a;
    }
  }

  lemma {:induction false} SplitAtSeparator(a: string, sep: char, b: string)
    requires sep !in a
    ensures Split(a + [sep] + b, sep) == [a] + Split(b, sep)
    decreases |a|
  {
    if |a| == 0 {
      assert a + [sep] + b == [sep] + b;
      assert ([sep] + b)[1..] == b;
    } else {
      SplitAtSeparator(a[1..], sep, b);
      assert (a + [sep] + b)[1..] == a[1..] + [sep] + b;
      assert [a[0]] + a[1..] == a;
    }
  }

  lemma SplitFour(a: string, b: string, c: string, d: string)
    requires '\t' !in a && '\t' !in b && '\t' !in c && '\t' !in d
    ensures Split(a + ['\t'] + (b + ['\t'] + (c + ['\t'] + d)), '\t') == [a, b, c, d]
  {
    SplitAtSeparator(a, '\t', b + ['\t'] + (c + ['\t'] + d));
    SplitAtSeparator(b, '\t', c + ['\t'] + d);
    SplitAtSeparator(c, '\t', d);
    SplitWithoutSeparator(d, '\t');
  }

  /**
   * The text form has exactly four tab-separated pieces (no trailing tab), and each piece reads
   * back as the field it was written from.
   */
  lemma ToStringRoundTrip(ins: Instruction)
    requires ins.WellFormed()
    ensures var parts := Split(ins.ToString(), '\t');
      |parts| == 4 && forall k :: 0 <= k < 4 ==> ParseInt(parts[k]) == Some(ins.instructionFields[k])
  {
    var f := ins.instructionFields;
    var s0, s1, s2, s3 := IntToString(f[0]), IntToString(f[1]), IntToString(f[2]), IntToString(f[3]);
    IntToStringRoundTrip(f[0]);
    IntToStringRoundTrip(f[1]);
    IntToStringRoundTrip(f[2]);
    IntToStringRoundTrip(f[3]);
    Regroup(s0, s1, s2, s3);
    SplitFour(s0, s1, s2, s3);
    assert Split(ins.ToString(), '\t') == [s0, s1, s2, s3];
  }

  /** The tab-joined form of four fields, grouped from the right. */
  lemma Regroup(a: string, b: string, c: string, d: string)
    ensures a + "\t" + b + "\t" + c + "\t" + d == a + ['\t'] + (b + ['\t'] + (c + ['\t'] + d))
  {
    assert "\t" == ['\t'];
  }
}
