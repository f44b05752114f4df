/** The framing of the Rinnai Touch TCP protocol: every outbound command is
    "N", a six-digit sequence number and the JSON command text, and the
    sequence number to send next is derived from the one the unit echoed
    in its last status frame. */
module Wire {
  import opened Py

  /** The six decimal digits the status frame carries in front of its JSON
      array. */
  type Numeral6 = s: string | |s| == 6 && IsNumeral(s) witness "000000"

  /** The number a status frame echoed, as int() reads it. */
  function Echoed(numeral: Numeral6): (n: nat)
    ensures n < 1000000
    ensures ParseInt(numeral) == Ok(n)
  {
    ParseNumeral(numeral);
    ValueBound(numeral);
    Value(numeral)
  }

  lemma {:induction false} ValueBound(s: string)
    requires forall i :: 0 <= i < |s| ==> IsDigit(s[i])
    ensures Value(s) < Pow10(|s|)
  {
    if s != [] {
      ValueBound(s[..|s| - 1]);
    }
  }

  /** The sequence number for the next send: one more than the echoed one,
      rolling over to 0 once it reaches 255. */
  function NextSequence(echoed: nat): (r: nat)
    ensures r <= 255
    ensures echoed < 255 ==> r == echoed + 1
    ensures echoed >= 255 ==> r == 0
  {
    if echoed >= 255 then 0 else echoed + 1
  }

  /** Within the byte range the rule is counting modulo 256. */
  lemma NextSequenceModulo(echoed: nat)
    requires echoed <= 255
    ensures NextSequence(echoed) == (echoed + 1) % 256
  {
  }

  /** k successive roll-overs starting from s. */
  function Roll(s: nat, k: nat): nat
    decreases k
  {
    if k == 0 then s else Roll(NextSequence(s), k - 1)
  }

  /** Starting inside 0..255, k roll-overs add k modulo 256: the numbers
      cycle through all 256 values and come back after 256 sends. */
  lemma {:induction false} RollModulo(s: nat, k: nat)
    requires s <= 255
    ensures Roll(s, k) == (s + k) % 256
    decreases k
  {
    if k > 0 {
      NextSequenceModulo(s);
      RollModulo(NextSequence(s), k - 1);
    }
  }

  lemma RollCycle(s: nat)
    requires s <= 255
    ensures Roll(s, 256) == s
    ensures forall k :: 0 < k < 256 ==> Roll(s, k) != s
  {
    RollModulo(s, 256);
    forall k | 0 < k < 256 ensures Roll(s, k) != s {
      RollModulo(s, k);
    }
  }

  /** The frame sendCmd writes: "N", str(sequence).zfill(6), the command. */
  function Frame(sequence: int, command: string): (f: string)
    ensures |f| >= 7 + |command|
    ensures f[0] == 'N'
  {
    "N" + ZFill(Str(sequence), 6) + command
  }

  /** Reads a frame back: the sequence number and the command, when the
      frame starts with "N" and six digits. */
  function Unframe(f: string): (r: Option<(nat, string)>)
    ensures r.Some? <==> |f| >= 7 && f[0] == 'N' && IsNumeral(f[1..7])
  {
    if |f| >= 7 && f[0] == 'N' && IsNumeral(f[1..7]) then Some((Value(f[1..7]), f[7..])) else None
  }

  /** A sequence number below 10^6 takes exactly six digits once padded. */
  lemma PaddedDigits(sequence: nat)
    requires sequence < 1000000
    ensures var p := ZFill(Str(sequence), 6);
      |p| == 6 && IsNumeral(p) && Value(p) == sequence
  {
    assert Pow10(6) == 1000000;
    DecLength(sequence, 6);
    var d := Dec(sequence);
    ValueOfDec(sequence);
    assert ZFill(d, 6) == Zeros(6 - |d|) + d;
    ZerosNumeral(6 - |d|, d);
  }

  /** Every sequence number sendCmd can hold frames to "N", six digits and
      the command, and reads back as the same number and command. */
  lemma FrameRoundTrip(sequence: nat, command: string)
    requires sequence < 1000000
    ensures |Frame(sequence, command)| == 7 + |command|
    ensures Unframe(Frame(sequence, command)) == Some((sequence, command))
  {
    PaddedDigits(sequence);
    var p := ZFill(Str(sequence), 6);
    var f := Frame(sequence, command);
    assert f[1..7] == p;
    assert f[7..] == command;
  }

  /** The frame carries the number as int() reads it back. */
  lemma FrameSequence(sequence: nat, command: string)
    requires sequence < 1000000
    ensures ParseInt(Frame(sequence, command)[1..7]) == Ok(sequence)
  {
    FrameRoundTrip(sequence, command);
    PaddedDigits(sequence);
    ParseNumeral(Frame(sequence, command)[1..7]);
  }
}
