/**
  The input masks the screens hand to the masked text input. Applying a mask
  to keystrokes is the input library's work and is not modelled; what is
  modelled is the mask as data and what a completely filled mask looks like,
  which ties the masks to the digit counts the validators demand.
 */
module Masks {
  import opened Text

  /** One position of a mask: `/\d/` or a fixed character. */
  datatype Slot = DigitSlot | Literal(c: char)

  type Mask = seq<Slot>

  /** `n` consecutive digit slots. */
  function Digits(n: nat): (r: Mask)
    ensures |r| == n && forall i :: 0 <= i < n ==> r[i] == DigitSlot
  {
    seq(n, _ => DigitSlot)
  }

  /** `000.000.000-00`, the CPF (national ID) mask of every screen. */
  const CpfMask: Mask := Digits(3) + [Literal('.')] + Digits(3) + [Literal('.')] + Digits(3) + [Literal('-')] + Digits(2)

  /** `00.000.000-0`, the RG (state ID) mask. */
  const RgMask: Mask := Digits(2) + [Literal('.')] + Digits(3) + [Literal('.')] + Digits(3) + [Literal('-')] + Digits(1)

  /** `00/00/0000`, the date mask. */
  const DataMask: Mask := Digits(2) + [Literal('/')] + Digits(2) + [Literal('/')] + Digits(4)

  /** `00000-000`, the CEP (postal code) mask of the guardian screens. */
  const CepMask: Mask := Digits(5) + [Literal('-')] + Digits(3)

  /** `(00) 00000-0000`, the telephone mask of the guardian and observation screens. */
  const TelefoneMask: Mask := [Literal('(')] + Digits(2) + [Literal(')'), Literal(' ')] + Digits(5) + [Literal('-')] + Digits(4)

  /** How many digits a mask takes. */
  function DigitSlots(m: Mask): nat {
    if m == [] then 0 else (if m[0] == DigitSlot then 1 else 0) + DigitSlots(m[1..])
  }

  /** Digit slots add up over concatenated mask pieces. */
  lemma {:induction false} DigitSlotsConcat(a: Mask, b: Mask)
    ensures DigitSlots(a + b) == DigitSlots(a) + DigitSlots(b)
    decreases |a|
  {
    if a == [] {
      assert a + b == b;
    } else {
      assert (a + b)[0] == a[0] && (a + b)[1..] == a[1..] + b;
      DigitSlotsConcat(a[1..], b);
    }
  }

  lemma {:induction false} DigitSlotsOfDigits(n: nat)
    ensures DigitSlots(Digits(n)) == n
    decreases n
  {
    if n > 0 {
      assert Digits(n)[1..] == Digits(n - 1);
      DigitSlotsOfDigits(n - 1);
    }
  }

  /** No fixed character of the mask is itself a digit. */
  predicate SeparatorsOnly(m: Mask) {
    forall i :: 0 <= i < |m| ==> m[i].Literal? ==> !IsDigit(m[i].c)
  }

  /** Character `c` may stand at a position holding `slot`. */
  predicate Accepts(slot: Slot, c: char) {
    match slot
    case DigitSlot => IsDigit(c)
    case Literal(l) => c == l
  }

  /** `s` is what the mask shows once every slot has been filled. */
  predicate Fills(m: Mask, s: string) {
    |s| == |m| && forall i :: 0 <= i < |m| ==> Accepts(m[i], s[i])
  }

  /** A filled mask holds exactly as many digits as the mask has digit slots. */
  lemma {:induction false} FilledDigitCount(m: Mask, s: string)
    requires SeparatorsOnly(m) && Fills(m, s)
    ensures DigitCount(s) == DigitSlots(m)
    decreases |m|
  {
    if m != [] {
      assert Accepts(m[0], s[0]);
      assert SeparatorsOnly(m[1..]) && Fills(m[1..], s[1..]) by {
        assert forall i :: 0 <= i < |m| - 1 ==> m[1..][i] == m[i + 1] && s[1..][i] == s[i + 1];
      }
      FilledDigitCount(m[1..], s[1..]);
    }
  }

  lemma CpfMaskSlots()
    ensures DigitSlots(CpfMask) == 11
  {
    var p1 := Digits(3) + [Literal('.')];
    var p2 := p1 + Digits(3);
    var p3 := p2 + [Literal('.')];
    var p4 := p3 + Digits(3);
    var p5 := p4 + [Literal('-')];
    DigitSlotsOfDigits(2); DigitSlotsOfDigits(3);
    DigitSlotsConcat(Digits(3), [Literal('.')]);
    DigitSlotsConcat(p1, Digits(3)); DigitSlotsConcat(p2, [Literal('.')]);
    DigitSlotsConcat(p3, Digits(3)); DigitSlotsConcat(p4, [Literal('-')]);
    DigitSlotsConcat(p5, Digits(2));
  }

  lemma RgMaskSlots()
    ensures DigitSlots(RgMask) == 9
  {
    var p1 := Digits(2) + [Literal('.')];
    var p2 := p1 + Digits(3);
    var p3 := p2 + [Literal('.')];
    var p4 := p3 + Digits(3);
    var p5 := p4 + [Literal('-')];
    DigitSlotsOfDigits(1); DigitSlotsOfDigits(2); DigitSlotsOfDigits(3);
    DigitSlotsConcat(Digits(2), [Literal('.')]);
    DigitSlotsConcat(p1, Digits(3)); DigitSlotsConcat(p2, [Literal('.')]);
    DigitSlotsConcat(p3, Digits(3)); DigitSlotsConcat(p4, [Literal('-')]);
    DigitSlotsConcat(p5, Digits(1));
  }

  lemma DataMaskSlots()
    ensures DigitSlots(DataMask) == 8
  {
    var p1 := Digits(2) + [Literal('/')];
    var p2 := p1 + Digits(2);
    var p3 := p2 + [Literal('/')];
    DigitSlotsOfDigits(2); DigitSlotsOfDigits(4);
    DigitSlotsConcat(Digits(2), [Literal('/')]);
    DigitSlotsConcat(p1, Digits(2)); DigitSlotsConcat(p2, [Literal('/')]);
    DigitSlotsConcat(p3, Digits(4));
  }

  lemma CepMaskSlots()
    ensures DigitSlots(CepMask) == 8
  {
    DigitSlotsOfDigits(3); DigitSlotsOfDigits(5);
    DigitSlotsConcat(Digits(5), [Literal('-')]);
    DigitSlotsConcat(Digits(5) + [Literal('-')], Digits(3));
  }

  lemma TelefoneMaskSlots()
    ensures DigitSlots(TelefoneMask) == 11
  {
    var p1 := [Literal('(')] + Digits(2);
    var p2 := p1 + [Literal(')'), Literal(' ')];
    var p3 := p2 + Digits(5);
    var p4 := p3 + [Literal('-')];
    DigitSlotsOfDigits(2); DigitSlotsOfDigits(4); DigitSlotsOfDigits(5);
    DigitSlotsConcat([Literal('(')], Digits(2));
    DigitSlotsConcat(p1, [Literal(')'), Literal(' ')]); DigitSlotsConcat(p2, Digits(5));
    DigitSlotsConcat(p3, [Literal('-')]); DigitSlotsConcat(p4, Digits(4));
  }

  /** The digit-slot counts agree with the counts the validators demand. */
  lemma MaskDigitSlots()
    ensures DigitSlots(CpfMask) == 11 && DigitSlots(RgMask) == 9 && DigitSlots(CepMask) == 8
    ensures DigitSlots(DataMask) == 8 && DigitSlots(TelefoneMask) == 11
  {
    CpfMaskSlots(); RgMaskSlots(); DataMaskSlots(); CepMaskSlots(); TelefoneMaskSlots();
  }

  /**
    A completely filled CPF, RG, CEP or telephone mask always has the digit
    count its validator accepts (11, 9, 8 and 11).
   */
  lemma FilledMasksPassDigitRules(s: string)
    ensures Fills(CpfMask, s) ==> DigitCount(s) == 11
    ensures Fills(RgMask, s) ==> DigitCount(s) == 9
    ensures Fills(CepMask, s) ==> DigitCount(s) == 8
    ensures Fills(TelefoneMask, s) ==> DigitCount(s) == 11
  {
    MaskDigitSlots();
    if Fills(CpfMask, s) { FilledDigitCount(CpfMask, s); }
    if Fills(RgMask, s) { FilledDigitCount(RgMask, s); }
    if Fills(CepMask, s) { FilledDigitCount(CepMask, s); }
    if Fills(TelefoneMask, s) { FilledDigitCount(TelefoneMask, s); }
  }

  /**
    A filled date mask has the slashes and digits the date pattern wants, so
    it passes the date check exactly when its day is 01-31 and its month 01-12.
   */
  lemma FilledDateMask(s: string)
    requires Fills(DataMask, s)
    ensures IsDateShaped(s) <==>
      && 1 <= 10 * DigitValue(s[0]) + DigitValue(s[1]) <= 31
      && 1 <= 10 * DigitValue(s[3]) + DigitValue(s[4]) <= 12
  {
    assert |DataMask| == 10 && DataMask[2] == Literal('/') && DataMask[5] == Literal('/');
    assert forall i :: 0 <= i < 10 && i != 2 && i != 5 ==> DataMask[i] == DigitSlot;
    assert Accepts(DataMask[2], s[2]) && Accepts(DataMask[5], s[5]);
    DateShapedMeaning(s);
  }
}
