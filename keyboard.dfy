/**
 * The Dreamcast keyboard state kept by the libretro frontend: a buffer of up
 * to six pressed key codes `kb_key` with its fill count `kb_used`, and the
 * modifier byte `kb_shift`, all updated by the frontend's keyboard event.
 *
 * The buffer is specified by the sequence of its first `kb_used` slots,
 * `Keys()`, and the invariant `Valid()`: the codes there are nonzero and
 * distinct and every slot after them is 0.
 */
module LibretroKeyboard {

  import opened Bits

  /** A Dreamcast key code, a C `u8`. */
  type byte = x: int | 0 <= x < 256

  /** Host key symbols of the modifier keys, from the libretro API. */
  const RETROK_RSHIFT: nat := 303
  const RETROK_LSHIFT: nat := 304
  const RETROK_RCTRL: nat := 305
  const RETROK_LCTRL: nat := 306

  /** A C `uint16_t`: the modifier flags of an event. */
  type u16 = x: int | 0 <= x < 0x10000

  /** The bit positions of the Shift (0x01) and Ctrl (0x02) modifier flags, from the libretro API. */
  const RETROKMOD_SHIFT_BIT: nat := 0
  const RETROKMOD_CTRL_BIT: nat := 1

  /** `kb_shift` bits: 0x02 | 0x20 for Shift, 0x01 | 0x10 for Ctrl. */
  const SHIFT_BITS: byte := 0x22
  const CTRL_BITS: byte := 0x11

  /** The number of slots in the buffer. */
  const SLOTS: nat := 6

  // ---------------------------------------------------------------------------
  // The pressed keys as a sequence

  /** At most six pressed keys, none of them 0, none twice. */
  predicate ValidKeys(s: seq<byte>) {
    && |s| <= SLOTS
    && (forall i :: 0 <= i < |s| ==> s[i] != 0)
    && (forall i, j :: 0 <= i < j < |s| ==> s[i] != s[j])
  }

  /** The six slots hold the keys of `ValidKeys` in front and 0 after them. */
  predicate WellFormed(slots: seq<byte>, used: int) {
    && |slots| == SLOTS
    && 0 <= used <= SLOTS
    && ValidKeys(slots[..used])
    && (forall i :: used <= i < SLOTS ==> slots[i] == 0)
  }

  /** `s` with the first occurrence of `k` removed; `s` if there is none. */
  function Without(s: seq<byte>, k: int): (r: seq<byte>)
    ensures k in s ==> |r| == |s| - 1
    ensures k !in s ==> r == s
    ensures forall x :: x in r ==> x in s
    ensures ValidKeys(s) ==> ValidKeys(r) && k !in r
    ensures ValidKeys(s) ==> forall x :: x in s && x != k ==> x in r
  {
    if |s| == 0 then []
    else
      assert forall i :: 0 <= i < |s| - 1 ==> s[1..][i] == s[i + 1];
      assert ValidKeys(s) ==> ValidKeys(s[1..]) && s[0] !in s[1..];
      if s[0] == k then s[1..]
      else
        var w := Without(s[1..], k);
        assert forall i :: 1 <= i < |w| + 1 ==> ([s[0]] + w)[i] == w[i - 1];
        [s[0]] + w
  }

  /**
   * `k` pressed: added at the end when it is a real key, not already held,
   * and there is room.
   */
  function Press(s: seq<byte>, k: byte): (r: seq<byte>)
    ensures ValidKeys(s) ==> ValidKeys(r)
    ensures k != 0 && |s| < SLOTS && k !in s ==> r == s + [k]
    ensures k == 0 || |s| >= SLOTS || k in s ==> r == s
  {
    if k != 0 && |s| < SLOTS && k !in s then s + [k] else s
  }

  /** Removing the key found at `p` is cutting it out of the sequence. */
  lemma {:induction false} WithoutAt(s: seq<byte>, k: int, p: nat)
    requires p < |s| && s[p] == k && k !in s[..p]
    ensures Without(s, k) == s[..p] + s[p + 1..]
    decreases p
  {
    if p > 0 {
      assert s[0] != k by { assert s[0] == s[..p][0]; }
      assert s[1..][..p - 1] == s[..p][1..];
      WithoutAt(s[1..], k, p - 1);
      assert s[1..][p..] == s[p + 1..];
      assert [s[0]] + s[1..][..p - 1] == s[..p];
    }
  }

  /** Releasing a key twice is releasing it once. */
  lemma ReleaseTwice(s: seq<byte>, k: int)
    requires ValidKeys(s)
    ensures Without(Without(s, k), k) == Without(s, k)
  {
  }

  /** A key pressed when there was room and then released leaves the keys as before. */
  lemma {:induction false} PressThenRelease(s: seq<byte>, k: byte)
    requires ValidKeys(s) && k != 0 && |s| < SLOTS && k !in s
    ensures Press(s, k) == s + [k]
    ensures Without(Press(s, k), k) == s
  {
    var t := s + [k];
    assert t[..|s|] == s;
    WithoutAt(t, k, |s|);
    assert t[|s| + 1..] == [];
  }

  /** Pressing a key twice is pressing it once. */
  lemma PressTwice(s: seq<byte>, k: byte)
    ensures Press(Press(s, k), k) == Press(s, k)
  {
  }

  // ---------------------------------------------------------------------------
  // The modifier byte

  predicate IsShiftKey(keycode: nat) {
    keycode == RETROK_LSHIFT || keycode == RETROK_RSHIFT
  }

  predicate IsCtrlKey(keycode: nat) {
    keycode == RETROK_LCTRL || keycode == RETROK_RCTRL
  }

  /** The Shift bits are bits 1 and 5, the Ctrl bits bits 0 and 4. */
  lemma ModifierBitPositions(i: nat)
    ensures Bit(SHIFT_BITS, i) <==> i == 1 || i == 5
    ensures Bit(CTRL_BITS, i) <==> i == 0 || i == 4
  {
    assert !Bit(SHIFT_BITS, 0) && Bit(SHIFT_BITS, 1) && !Bit(SHIFT_BITS, 2) && !Bit(SHIFT_BITS, 3);
    assert !Bit(SHIFT_BITS, 4) && Bit(SHIFT_BITS, 5) && !Bit(SHIFT_BITS, 6) && !Bit(SHIFT_BITS, 7);
    assert Bit(CTRL_BITS, 0) && !Bit(CTRL_BITS, 1) && !Bit(CTRL_BITS, 2) && !Bit(CTRL_BITS, 3);
    assert Bit(CTRL_BITS, 4) && !Bit(CTRL_BITS, 5) && !Bit(CTRL_BITS, 6) && !Bit(CTRL_BITS, 7);
    if i >= 8 {
      Pow2Widths();
      HighBitsClear(SHIFT_BITS, 8, i);
      HighBitsClear(CTRL_BITS, 8, i);
    }
  }

  /** `bits` set in `shift` when `down`, cleared otherwise. */
  function SetBits(shift: byte, bits: byte, down: bool): (r: byte)
    ensures forall i: nat :: Bit(r, i) == (if Bit(bits, i) then down else Bit(shift, i))
  {
    AndNotBits(shift, bits);
    OrBits(shift, bits);
    Pow2Widths();
    OrBound(shift, bits, 8);
    if down then Or(shift, bits) else AndNot(shift, bits)
  }

  /** Bit `i` of `kb_shift` belongs to the modifier key `keycode`. */
  predicate KeyBit(keycode: nat, i: nat) {
    || (IsShiftKey(keycode) && Bit(SHIFT_BITS, i))
    || (IsCtrlKey(keycode) && Bit(CTRL_BITS, i))
  }

  /**
   * `kb_shift` after an event for `keycode`: either Shift key sets or clears
   * both Shift bits, either Ctrl key both Ctrl bits, and no other bit moves.
   */
  function ShiftAfter(shift: byte, keycode: nat, down: bool): (r: byte)
    ensures forall i: nat :: Bit(r, i) == (if KeyBit(keycode, i) then down else Bit(shift, i))
  {
    var s := if IsShiftKey(keycode) then SetBits(shift, SHIFT_BITS, down) else shift;
    if IsCtrlKey(keycode) then SetBits(s, CTRL_BITS, down) else s
  }

  /** Releasing Shift after pressing it restores `kb_shift` when no Shift bit was set. */
  lemma {:induction false} ShiftPressRelease(shift: byte)
    requires forall i: nat :: Bit(shift, i) ==> !Bit(SHIFT_BITS, i)
    ensures ShiftAfter(ShiftAfter(shift, RETROK_LSHIFT, true), RETROK_RSHIFT, false) == shift
  {
    BitsDetermine(ShiftAfter(ShiftAfter(shift, RETROK_LSHIFT, true), RETROK_RSHIFT, false), shift);
  }

  // ---------------------------------------------------------------------------
  // A whole keyboard event on the keys

  /**
   * The keys after the modifier clean-up of an event with `modifiers`: with
   * the Shift flag absent the left-Shift code is released, with the Ctrl
   * flag absent both Ctrl codes are; every other key is kept and none added.
   */
  function ModifierRelease(s: seq<byte>, modifiers: u16, kbMap: seq<byte>): (r: seq<byte>)
    requires RETROK_LCTRL < |kbMap|
    ensures |r| <= |s| && forall x :: x in r ==> x in s
    ensures ValidKeys(s) ==> ValidKeys(r)
    ensures ValidKeys(s) && !Bit(modifiers, RETROKMOD_SHIFT_BIT) ==> kbMap[RETROK_LSHIFT] !in r
    ensures ValidKeys(s) && !Bit(modifiers, RETROKMOD_CTRL_BIT) ==>
      kbMap[RETROK_LCTRL] !in r && kbMap[RETROK_RCTRL] !in r
    ensures ValidKeys(s) ==> forall x :: x in s ==>
      (x in r <==> !((!Bit(modifiers, RETROKMOD_SHIFT_BIT) && x == kbMap[RETROK_LSHIFT])
                     || (!Bit(modifiers, RETROKMOD_CTRL_BIT) && (x == kbMap[RETROK_LCTRL] || x == kbMap[RETROK_RCTRL]))))
  {
    var afterShift :=
      if !Bit(modifiers, RETROKMOD_SHIFT_BIT)
      then Without(Without(s, kbMap[RETROK_LSHIFT]), kbMap[RETROK_LSHIFT])
      else s;
    if !Bit(modifiers, RETROKMOD_CTRL_BIT)
    then Without(Without(afterShift, kbMap[RETROK_LCTRL]), kbMap[RETROK_RCTRL])
    else afterShift
  }

  /**
   * The keys after an event: the modifier clean-up, then the key's Dreamcast
   * code (through `kbMap`) pressed or released; a key without a code does
   * nothing more. Valid keys stay valid; a released code is no longer held,
   * a pressed one is held whenever there was room, and no other key appears.
   */
  function EventKeys(s: seq<byte>, down: bool, keycode: nat, modifiers: u16,
                     kbMap: seq<byte>): (r: seq<byte>)
    requires keycode < |kbMap| && RETROK_LCTRL < |kbMap|
    ensures ValidKeys(s) ==> ValidKeys(r)
    ensures kbMap[keycode] == 0 ==> r == ModifierRelease(s, modifiers, kbMap)
    ensures ValidKeys(s) && kbMap[keycode] != 0 && !down ==> kbMap[keycode] !in r
    ensures kbMap[keycode] != 0 && down && |s| < SLOTS ==> kbMap[keycode] in r
    ensures forall x :: x in r ==> x in s || x == kbMap[keycode]
  {
    var m := ModifierRelease(s, modifiers, kbMap);
    var code := kbMap[keycode];
    if code == 0 then m else if down then Press(m, code) else Without(m, code)
  }

  /**
   * The clean-up releases the left Shift code twice and never the right one:
   * with Shift reported up, a held right-Shift code that differs from the
   * left-Shift code and from both Ctrl codes stays held.
   */
  lemma RightShiftNeverReleased(s: seq<byte>, kbMap: seq<byte>, modifiers: u16)
    requires RETROK_LCTRL < |kbMap| && ValidKeys(s)
    requires !Bit(modifiers, RETROKMOD_SHIFT_BIT)
    requires kbMap[RETROK_RSHIFT] in s && kbMap[RETROK_RSHIFT] != kbMap[RETROK_LSHIFT]
    requires kbMap[RETROK_RSHIFT] != kbMap[RETROK_LCTRL] && kbMap[RETROK_RSHIFT] != kbMap[RETROK_RCTRL]
    ensures kbMap[RETROK_RSHIFT] in ModifierRelease(s, modifiers, kbMap)
    ensures kbMap[RETROK_LSHIFT] !in ModifierRelease(s, modifiers, kbMap)
  {
  }

  /** With both modifier flags set, the clean-up changes nothing. */
  lemma ModifiersHeldKeepKeys(s: seq<byte>, kbMap: seq<byte>, modifiers: u16)
    requires RETROK_LCTRL < |kbMap|
    requires Bit(modifiers, RETROKMOD_SHIFT_BIT) && Bit(modifiers, RETROKMOD_CTRL_BIT)
    ensures ModifierRelease(s, modifiers, kbMap) == s
  {
  }

  // ---------------------------------------------------------------------------
  // The buffer itself

  /** Cutting slot `p` out of the six slots and refilling the last with 0. */
  function ShiftOut(a: seq<byte>, p: nat): seq<byte>
    requires p < |a|
  {
    a[..p] + a[p + 1..] + [0]
  }

  /** Cutting a held key out keeps the slots well formed, with that key gone. */
  lemma ShiftOutRemoves(a: seq<byte>, used: int, p: nat)
    requires WellFormed(a, used) && p < used
    ensures WellFormed(ShiftOut(a, p), used - 1)
    ensures ShiftOut(a, p)[..used - 1] == Without(a[..used], a[p])
    ensures a[p] !in ShiftOut(a, p)
  {
    var keys := a[..used];
    var b := ShiftOut(a, p);
    assert keys[p] == a[p];
    assert a[p] !in keys[..p] by {
      forall i | 0 <= i < p ensures keys[..p][i] != a[p] {
        assert keys[i] != keys[p];
      }
    }
    WithoutAt(keys, a[p], p);
    assert b[..used - 1] == keys[..p] + keys[p + 1..];
    forall i | 0 <= i < |b| ensures b[i] != a[p] {
      if i < p {
        assert b[i] == keys[i];
      } else if i < used - 1 {
        assert b[i] == keys[i + 1];
      } else {
        assert b[i] == 0;
      }
    }
  }

  class Keyboard {
    /** `kb_key`: the six slots. */
    const kbKey: array<byte>
    /** `kb_used`: how many of them hold a key. */
    var kbUsed: int
    /** `kb_shift`: the modifier bits. */
    var kbShift: byte

    ghost predicate Valid()
      reads this, kbKey
    {
      kbKey.Length == SLOTS && WellFormed(kbKey[..], kbUsed)
    }

    /** The pressed keys, oldest first. */
    function Keys(): seq<byte>
      reads this, kbKey
      requires Valid()
    {
      kbKey[..kbUsed]
    }

    /** Static storage: no key pressed and no modifier held. */
    constructor ()
      ensures Valid() && Keys() == [] && kbShift == 0
      ensures fresh(kbKey)
    {
      kbKey := new byte[SLOTS](_ => 0);
      kbUsed := 0;
      kbShift := 0;
    }

    /**
     * Releases `code` (`release_key`): scans all six slots and, where it
     * finds the code, drops the count and shifts the later slots down.
     */
    method ReleaseKey(code: nat)
      requires Valid()
      modifies kbKey, this`kbUsed
      ensures Valid()
      ensures Keys() == Without(old(Keys()), code)
    {
      if code == 0 {
        assert code !in Keys();
        return;
      }
      if kbUsed > 0 {
        ghost var a := kbKey[..];
        ghost var used := kbUsed;
        ghost var found := false;
        ghost var p: nat := 0;
        var i := 0;
        while i < SLOTS
          invariant 0 <= i <= SLOTS
          invariant !found ==> kbKey[..] == a && kbUsed == used && code !in a[..i]
          invariant found ==> p < i && p < used && a[p] == code && kbUsed == used - 1
          invariant found ==> kbKey[..] == ShiftOut(a, p) && code !in kbKey[..]
        {
          if kbKey[i] == code {
            assert !found && i < used;
            ShiftOutRemoves(a, used, i);
            RemoveSlot(i);
            found := true;
            p := i;
          }
          assert !found ==> a[..i + 1] == a[..i] + [a[i]];
          i := i + 1;
        }
        if found {
          ShiftOutRemoves(a, used, p);
        } else {
          assert a[..used] == a[..SLOTS][..used];
          assert code !in a[..used];
        }
      }
    }

    /**
     * The removal step of `ReleaseKey`: one key fewer, the slots after `i`
     * moved down by one and the last slot cleared.
     */
    method RemoveSlot(i: nat)
      requires kbKey.Length == SLOTS && i < SLOTS
      modifies kbKey, this`kbUsed
      ensures kbKey[..] == ShiftOut(old(kbKey[..]), i)
      ensures kbUsed == old(kbUsed) - 1
    {
      ghost var a := kbKey[..];
      kbUsed := kbUsed - 1;
      var j := i;
      while j < SLOTS - 1
        modifies kbKey
        invariant i <= j <= SLOTS - 1
        invariant forall k :: 0 <= k < i ==> kbKey[k] == a[k]
        invariant forall k :: i <= k < j ==> kbKey[k] == a[k + 1]
        invariant forall k :: j <= k < SLOTS ==> kbKey[k] == a[k]
      {
        kbKey[j] := kbKey[j + 1];
        j := j + 1;
      }
      kbKey[SLOTS - 1] := 0;
      ghost var b := ShiftOut(a, i);
      assert |b| == SLOTS;
      assert forall k :: 0 <= k < i ==> b[k] == a[k];
      assert forall k :: i <= k < SLOTS - 1 ==> b[k] == a[k + 1];
      assert kbKey[..] == b;
    }

    /** The `kb_shift` update at the head of a keyboard event. */
    method UpdateModifierBits(keycode: nat, down: bool)
      modifies this`kbShift
      ensures kbShift == ShiftAfter(old(kbShift), keycode, down)
    {
      if keycode == RETROK_LSHIFT || keycode == RETROK_RSHIFT {
        if !down {
          kbShift := AndNot(kbShift, SHIFT_BITS);
        } else {
          Pow2Widths();
          OrBound(kbShift, SHIFT_BITS, 8);
          kbShift := Or(kbShift, SHIFT_BITS);
        }
      }
      if keycode == RETROK_LCTRL || keycode == RETROK_RCTRL {
        if !down {
          kbShift := AndNot(kbShift, CTRL_BITS);
        } else {
          Pow2Widths();
          OrBound(kbShift, CTRL_BITS, 8);
          kbShift := Or(kbShift, CTRL_BITS);
        }
      }
    }

    /**
     * The key-down step of a keyboard event for a nonzero code: when there
     * is room, search all six slots and append the code if it is absent.
     */
    method PressKey(code: byte)
      requires Valid() && code != 0
      modifies kbKey, this`kbUsed
      ensures Valid()
      ensures Keys() == Press(old(Keys()), code)
    {
      if kbUsed < SLOTS {
        var found := false;
        var i := 0;
        while !found && i < SLOTS
          invariant 0 <= i <= SLOTS
          invariant found <==> code in kbKey[..i]
        {
          if kbKey[i] == code {
            found := true;
          }
          assert kbKey[..i + 1] == kbKey[..i] + [kbKey[i]];
          i := i + 1;
        }
        assert found <==> code in Keys() by {
          assert kbKey[..] == Keys() + kbKey[kbUsed..];
          if !found {
            assert kbKey[..i] == kbKey[..];
          }
        }
        if !found {
          ghost var m := Keys();
          kbKey[kbUsed] := code;
          kbUsed := kbUsed + 1;
          assert Keys() == m + [code];
        }
      }
    }

    /**
     * A keyboard event (`retro_keyboard_event`) for host key `keycode`:
     * updates `kb_shift`, releases the modifier codes whose flag is absent
     * from `modifiers`, then presses or releases the key's code under
     * `kbMap`.
     */
    method KeyboardEvent(down: bool, keycode: nat, character: int, modifiers: u16, kbMap: seq<byte>)
      requires Valid()
      requires keycode < |kbMap| && RETROK_LCTRL < |kbMap|
      modifies kbKey, this`kbUsed, this`kbShift
      ensures Valid()
      ensures kbShift == ShiftAfter(old(kbShift), keycode, down)
      ensures Keys() == EventKeys(old(Keys()), down, keycode, modifiers, kbMap)
    {
      UpdateModifierBits(keycode, down);

      ghost var k0 := Keys();
      if !Bit(modifiers, RETROKMOD_SHIFT_BIT) {
        ReleaseKey(kbMap[RETROK_LSHIFT]);
        ReleaseKey(kbMap[RETROK_LSHIFT]);
      }
      ghost var k1 := Keys();
      assert k1 == if !Bit(modifiers, RETROKMOD_SHIFT_BIT)
        then Without(Without(k0, kbMap[RETROK_LSHIFT]), kbMap[RETROK_LSHIFT]) else k0;
      if !Bit(modifiers, RETROKMOD_CTRL_BIT) {
        ReleaseKey(kbMap[RETROK_LCTRL]);
        ReleaseKey(kbMap[RETROK_RCTRL]);
      }
      ghost var k2 := Keys();
      assert k2 == if !Bit(modifiers, RETROKMOD_CTRL_BIT)
        then Without(Without(k1, kbMap[RETROK_LCTRL]), kbMap[RETROK_RCTRL]) else k1;
      assert k2 == ModifierRelease(k0, modifiers, kbMap);

      var dcKeycode := kbMap[keycode];
      if dcKeycode != 0 {
        if down {
          PressKey(dcKeycode);
        } else {
          ReleaseKey(dcKeycode);
        }
      }
    }
  }
}
