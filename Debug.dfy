/** The checkers' debug support (add_debug): the diagnostic format string, whose hex field
    widths are derived from the register widths, and the watchdog that calls Finish a fixed
    number of cycles after a data_error pulse. */
module Debug {
  import opened AddressArithmetic

  // ------------------------------------------------------------------- format

  function DigitChar(d: nat): (c: char)
    requires d < 10
    ensures '0' <= c <= '9' && c as int - '0' as int == d
  {
    ['0', '1', '2', '3', '4', '5', '6', '7', '8', '9'][d]
  }

  /** Python's str.format of a non-negative integer: its decimal digits, most significant first. */
  function NatToDecimal(n: nat): (s: string)
    ensures |s| > 0 && forall j :: 0 <= j < |s| ==> '0' <= s[j] <= '9'
    ensures n < 10 <==> |s| == 1
  {
    if n < 10 then [DigitChar(n)] else NatToDecimal(n / 10) + [DigitChar(n % 10)]
  }

  /** The value a string of decimal digits denotes. */
  function DecimalValue(s: string): nat
    requires forall j :: 0 <= j < |s| ==> '0' <= s[j] <= '9'
  {
    if s == [] then 0 else DecimalValue(s[..|s| - 1]) * 10 + (s[|s| - 1] as int - '0' as int)
  }

  /** The printed width is the number itself: the digits denote n. */
  lemma {:induction false} DecimalRoundTrip(n: nat)
    ensures DecimalValue(NatToDecimal(n)) == n
  {
    if n >= 10 {
      DecimalRoundTrip(n / 10);
      var s := NatToDecimal(n);
      assert s[..|s| - 1] == NatToDecimal(n / 10);
    }
  }

  /** The message each checker prints after its banner ("[Checker High]", "[Checker Low]"): address, observed and expected words, each as zero-padded
      hex with adr_width // 4 and dw // 4 digits. The backslash before each % is kept, as a
      Python string literal keeps an unknown escape. */
  function DataErrorFormat(adrWidth: nat, dw: nat): string
  {
    " Data Error @ 0x\\%0" + NatToDecimal(adrWidth / 4) + "x: 0x\\%0" + NatToDecimal(dw / 4) +
    "x vs 0x\\%0" + NatToDecimal(dw / 4) + "x"
  }

  /** With the widths every checker is built with, the fields are 16, 8 and 8 hex digits. */
  lemma DefaultFormat()
    ensures DataErrorFormat(ADR_WIDTH, DW) == " Data Error @ 0x\\%016x: 0x\\%08x vs 0x\\%08x"
  {
    assert NatToDecimal(16) == "16" by {
      assert NatToDecimal(1) == "1";
      assert DigitChar(6) == '6';
    }
    assert NatToDecimal(8) == "8";
    var a := " Data Error @ 0x\\%0" + "16";
    assert a == " Data Error @ 0x\\%016";
    var b := a + "x: 0x\\%0";
    assert b == " Data Error @ 0x\\%016x: 0x\\%0";
    var c := b + "8";
    assert c == " Data Error @ 0x\\%016x: 0x\\%08";
    var d := c + "x vs 0x\\%0";
    assert d == " Data Error @ 0x\\%016x: 0x\\%08x vs 0x\\%0";
    var e := d + "8";
    assert e == " Data Error @ 0x\\%016x: 0x\\%08x vs 0x\\%08";
    assert e + "x" == " Data Error @ 0x\\%016x: 0x\\%08x vs 0x\\%08x";
  }

  function Pow(b: nat, e: nat): nat
  {
    if e == 0 then 1 else b * Pow(b, e - 1)
  }

  lemma MulAssoc(a: nat, b: nat, c: nat)
    ensures a * (b * c) == (a * b) * c
  {
  }

  lemma {:induction false} PowAdd(b: nat, x: nat, y: nat)
    ensures Pow(b, x + y) == Pow(b, x) * Pow(b, y)
    decreases x
  {
    if x > 0 {
      PowAdd(b, x - 1, y);
      MulAssoc(b, Pow(b, x - 1), Pow(b, y));
      assert Pow(b, x + y) == b * Pow(b, x - 1 + y);
    }
  }

  /** A width that is a multiple of 4 is covered exactly by width // 4 hex digits. */
  lemma {:induction false} HexDigitsExact(w: nat)
    requires w % 4 == 0
    ensures Pow(16, w / 4) == Pow(2, w)
    decreases w
  {
    if w > 0 {
      HexDigitsExact(w - 4);
      PowAdd(2, 4, w - 4);
      assert Pow(2, 4) == 16;
      assert (w - 4) / 4 == w / 4 - 1;
    }
  }

  lemma PowersOfTwo()
    ensures Pow(2, 32) == DAT_MOD && Pow(2, 64) == ADR_MOD
  {
    assert Pow(2, 4) == 16;
    PowAdd(2, 4, 4);
    assert Pow(2, 8) == 0x100;
    PowAdd(2, 8, 8);
    assert Pow(2, 16) == 0x1_0000;
    PowAdd(2, 16, 16);
    assert Pow(2, 32) == 0x1_0000_0000;
    PowAdd(2, 32, 32);
  }

  /** So every address register value prints in exactly 16 digits and every data word in 8:
      16^(adr_width // 4) is the range of base_addr and 16^(dw // 4) that of the data words. */
  lemma FieldsFitRegisters()
    ensures Pow(16, ADR_WIDTH / 4) == ADR_MOD && Pow(16, DW / 4) == DAT_MOD
  {
    HexDigitsExact(ADR_WIDTH);
    HexDigitsExact(DW);
    PowersOfTwo();
  }

  // ----------------------------------------------------------------- watchdog

  /** Cycles from data_error to Finish. */
  const WATCHDOG_DELAY: nat := 128

  /** The timeline counter: idle at 0, started to 1 by the trigger, counting up while non-zero
      and back to 0 once it reaches the last event; triggers while counting are ignored. */
  function TimelineNext(delay: nat, c: nat, trigger: bool): nat
  {
    if c == delay then 0 else if c != 0 then c + 1 else if trigger then 1 else 0
  }

  /** The counter before cycle j of a trace that starts with counter c. */
  function TimelineAt(delay: nat, c: nat, triggers: seq<bool>, j: nat): nat
    requires j <= |triggers|
    decreases j
  {
    if j == 0 then c else TimelineNext(delay, TimelineAt(delay, c, triggers, j - 1), triggers[j - 1])
  }

  /** Finish is called on the cycles where the counter equals the delay. */
  predicate Fires(delay: nat, c: nat)
  {
    c == delay
  }

  /** A data_error pulse on cycle 0 (with the counter idle) makes Finish happen on cycle
      delay and on no cycle before it, whatever data_error does in between. */
  lemma {:induction false} TimelineCounts(delay: nat, triggers: seq<bool>, j: nat)
    requires delay > 0 && |triggers| > 0 && triggers[0]
    requires 1 <= j <= delay && j <= |triggers|
    ensures TimelineAt(delay, 0, triggers, j) == j
    ensures forall i :: 0 <= i < j ==> !Fires(delay, TimelineAt(delay, 0, triggers, i))
  {
    if j > 1 {
      TimelineCounts(delay, triggers, j - 1);
    }
    forall i | 0 <= i < j
      ensures !Fires(delay, TimelineAt(delay, 0, triggers, i))
    {
      if i > 0 {
        TimelineCounts(delay, triggers, i);
      }
    }
  }

  lemma TimelineFiresAfterDelay(delay: nat, triggers: seq<bool>)
    requires delay > 0 && |triggers| > delay && triggers[0]
    ensures Fires(delay, TimelineAt(delay, 0, triggers, delay))
    ensures forall i :: 0 <= i < delay ==> !Fires(delay, TimelineAt(delay, 0, triggers, i))
    ensures TimelineAt(delay, 0, triggers, delay + 1) == 0
  {
    TimelineCounts(delay, triggers, delay);
  }

  /** Without a data_error pulse the counter stays idle: a clean run never hits the watchdog. */
  lemma {:induction false} TimelineQuiet(delay: nat, triggers: seq<bool>, j: nat)
    requires delay > 0 && j <= |triggers|
    requires forall i :: 0 <= i < j ==> !triggers[i]
    ensures TimelineAt(delay, 0, triggers, j) == 0 && !Fires(delay, TimelineAt(delay, 0, triggers, j))
  {
    if j > 0 {
      TimelineQuiet(delay, triggers, j - 1);
    }
  }

  /** The watchdog attached to one checker. */
  class Timeline {
    const delay: nat
    var counter: nat

    constructor (d: nat)
      ensures delay == d && counter == 0
    {
      delay := d;
      counter := 0;
    }

    /** One clock cycle; fire tells whether Finish is called on it. */
    method Step(trigger: bool) returns (fire: bool)
      modifies this
      ensures fire == Fires(delay, old(counter))
      ensures counter == TimelineNext(delay, old(counter), trigger)
    {
      fire := counter == delay;
      if counter == delay {
        counter := 0;
      } else if counter != 0 {
        counter := counter + 1;
      } else if trigger {
        counter := 1;
      }
    }
  }
}
