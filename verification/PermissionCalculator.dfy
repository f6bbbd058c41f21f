/**
 * The permission calculator: whenever a permission checkbox changes, the page
 * adds up the values of all ticked boxes with arbitrary-precision integers and
 * shows the total as decimal text.
 */
module PermissionCalculator {
  import Decimal

  /** One permission checkbox: whether it is ticked and the value its `value` attribute holds. */
  datatype Checkbox = Checkbox(checked: bool, value: nat)

  /** The values of the ticked boxes, in page order. */
  function CheckedValues(boxes: seq<Checkbox>): seq<nat>
  {
    if boxes == [] then []
    else (if boxes[0].checked then [boxes[0].value] else []) + CheckedValues(boxes[1..])
  }

  function Sum(xs: seq<nat>): nat
  {
    if xs == [] then 0 else xs[0] + Sum(xs[1..])
  }

  /** The permission mask the ticked boxes stand for: the exact sum of their values. */
  function Total(boxes: seq<Checkbox>): nat
  {
    Sum(CheckedValues(boxes))
  }

  lemma {:induction false} SumAppend(a: seq<nat>, b: seq<nat>)
    ensures Sum(a + b) == Sum(a) + Sum(b)
  {
    if a != [] {
      SumAppend(a[1..], b);
      assert (a + b)[1..] == a[1..] + b;
    } else {
      assert a + b == b;
    }
  }

  lemma {:induction false} CheckedValuesAppend(a: seq<Checkbox>, b: seq<Checkbox>)
    ensures CheckedValues(a + b) == CheckedValues(a) + CheckedValues(b)
  {
    if a != [] {
      CheckedValuesAppend(a[1..], b);
      assert (a + b)[1..] == a[1..] + b;
    } else {
      assert a + b == b;
    }
  }

  /** The total of a list of boxes splits over any division of the list. */
  lemma TotalAppend(a: seq<Checkbox>, b: seq<Checkbox>)
    ensures Total(a + b) == Total(a) + Total(b)
  {
    CheckedValuesAppend(a, b);
    SumAppend(CheckedValues(a), CheckedValues(b));
  }

  /** A single box counts its value when ticked and nothing otherwise. */
  lemma TotalOne(b: Checkbox)
    ensures Total([b]) == if b.checked then b.value else 0
  {
    assert [b][1..] == [];
    assert CheckedValues([b]) == (if b.checked then [b.value] else []) + CheckedValues([]);
    var vs := CheckedValues([b]);
    if b.checked {
      assert vs == [b.value] && vs[1..] == [];
      assert Sum(vs) == vs[0] + Sum(vs[1..]);
    }
  }

  /** With no box ticked the mask is 0. */
  lemma {:induction false} NoneCheckedIsZero(boxes: seq<Checkbox>)
    requires forall i :: 0 <= i < |boxes| ==> !boxes[i].checked
    ensures Total(boxes) == 0
  {
    if boxes != [] {
      NoneCheckedIsZero(boxes[1..]);
      assert CheckedValues(boxes) == CheckedValues(boxes[1..]);
    }
  }

  /** An unticked box contributes nothing: removing it leaves the mask unchanged. */
  lemma UncheckedBoxIgnored(boxes: seq<Checkbox>, i: nat)
    requires i < |boxes| && !boxes[i].checked
    ensures Total(boxes[..i] + boxes[i + 1..]) == Total(boxes)
  {
    assert boxes == boxes[..i] + ([boxes[i]] + boxes[i + 1..]);
    TotalAppend(boxes[..i], [boxes[i]] + boxes[i + 1..]);
    TotalAppend([boxes[i]], boxes[i + 1..]);
    TotalAppend(boxes[..i], boxes[i + 1..]);
    TotalOne(boxes[i]);
  }

  /** Ticking one more box adds exactly its value to the mask. */
  lemma TickingAddsValue(boxes: seq<Checkbox>, i: nat)
    requires i < |boxes| && !boxes[i].checked
    ensures Total(boxes[i := Checkbox(true, boxes[i].value)]) == Total(boxes) + boxes[i].value
  {
    var ticked := boxes[i := Checkbox(true, boxes[i].value)];
    assert boxes == boxes[..i] + ([boxes[i]] + boxes[i + 1..]);
    assert ticked == boxes[..i] + ([ticked[i]] + boxes[i + 1..]);
    TotalAppend(boxes[..i], [boxes[i]] + boxes[i + 1..]);
    TotalAppend([boxes[i]], boxes[i + 1..]);
    TotalAppend(boxes[..i], [ticked[i]] + boxes[i + 1..]);
    TotalAppend([ticked[i]], boxes[i + 1..]);
    TotalOne(boxes[i]);
    TotalOne(ticked[i]);
  }

  /**
   * The change handler: a running `total` over all boxes, then its decimal text,
   * which the "apply" buttons copy into a grant's permission field.
   */
  method Recalculate(boxes: seq<Checkbox>) returns (total: nat, display: string)
    ensures total == Total(boxes)
    ensures Decimal.AllDigits(display) && display != [] && Decimal.ValueOf(display) == total
    ensures |display| > 1 ==> display[0] != '0'
    ensures display == Decimal.NatToString(total)
  {
    total := 0;
    var i := 0;
    while i < |boxes|
      invariant 0 <= i <= |boxes|
      invariant total == Total(boxes[..i])
    {
      if boxes[i].checked {
        total := total + boxes[i].value;
      }
      TotalAppend(boxes[..i], [boxes[i]]);
      TotalOne(boxes[i]);
      assert boxes[..i + 1] == boxes[..i] + [boxes[i]];
      i := i + 1;
    }
    assert boxes[..i] == boxes;
    display := Decimal.NatToString(total);
    Decimal.NatToStringRoundTrip(total);
  }
}
