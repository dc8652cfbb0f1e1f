/**
 * The Dreamcast controller button words kept by the libretro frontend:
 * `kcode[4]`, one 16-bit word per port, active low (a pressed button's bits
 * are 0, a released button's bits are 1).
 */
module LibretroInput {

  import opened Bits

  type u16 = x: int | 0 <= x < 0x10000

  /** The number of controller ports. */
  const PORTS: nat := 4

  /** Every button released. */
  const ALL_RELEASED: u16 := 0xFFFF

  /**
   * `word` after button bits `key` are reported: cleared when the button is
   * down, set when it is up, and every other bit as it was.
   */
  function ButtonWord(word: u16, key: u16, down: bool): (r: u16)
    ensures forall i: nat :: Bit(r, i) == (if Bit(key, i) then !down else Bit(word, i))
  {
    AndNotBits(word, key);
    OrBits(word, key);
    Pow2Widths();
    OrBound(word, key, 16);
    if down then AndNot(word, key) else Or(word, key)
  }

  /** A button pressed and then released restores a word where it was released. */
  lemma PressThenReleaseRestores(word: u16, key: u16)
    requires forall i: nat :: Bit(key, i) ==> Bit(word, i)
    ensures ButtonWord(ButtonWord(word, key, true), key, false) == word
  {
    BitsDetermine(ButtonWord(ButtonWord(word, key, true), key, false), word);
  }

  /** The last report of a button decides its bits, whatever came before. */
  lemma LastReportWins(word: u16, key: u16, first: bool, second: bool)
    ensures ButtonWord(ButtonWord(word, key, first), key, second) == ButtonWord(word, key, second)
  {
    BitsDetermine(ButtonWord(ButtonWord(word, key, first), key, second), ButtonWord(word, key, second));
  }

  /** Buttons with no bit in common can be reported in either order. */
  lemma DisjointButtonsCommute(word: u16, k1: u16, k2: u16, d1: bool, d2: bool)
    requires forall i: nat :: !(Bit(k1, i) && Bit(k2, i))
    ensures ButtonWord(ButtonWord(word, k1, d1), k2, d2) == ButtonWord(ButtonWord(word, k2, d2), k1, d1)
  {
    BitsDetermine(ButtonWord(ButtonWord(word, k1, d1), k2, d2), ButtonWord(ButtonWord(word, k2, d2), k1, d1));
  }

  class Pads {
    /** `kcode`: the button word of each port. */
    const kcode: array<u16>

    /** Static storage: four ports, every button released. */
    constructor ()
      ensures kcode.Length == PORTS
      ensures forall p :: 0 <= p < PORTS ==> kcode[p] == ALL_RELEASED
      ensures fresh(kcode)
    {
      kcode := new u16[PORTS](_ => ALL_RELEASED);
    }

    /**
     * Records the state of button `btnId` on `port` (`setDeviceButtonState`):
     * the button's bits come from `joymap`, and `isDown` is what the host
     * input callback reports for it.
     */
    method SetDeviceButtonState(port: nat, deviceType: int, btnId: nat, joymap: seq<u16>, isDown: bool)
      requires port < kcode.Length && btnId < |joymap|
      modifies kcode
      ensures kcode[port] == ButtonWord(old(kcode[port]), joymap[btnId], isDown)
      ensures forall p :: 0 <= p < kcode.Length && p != port ==> kcode[p] == old(kcode[p])
    {
      var dcKey := joymap[btnId];
      if isDown {
        kcode[port] := AndNot(kcode[port], dcKey);
      } else {
        Pow2Widths();
        OrBound(kcode[port], dcKey, 16);
        kcode[port] := Or(kcode[port], dcKey);
      }
    }
  }
}
