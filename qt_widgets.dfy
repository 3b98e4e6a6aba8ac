/**
 * The parts of Qt widget behaviour the application's decisions depend on,
 * as values: a combo box's items and current index (and when it announces
 * an index change), and a spin box's range and clamped value.
 */
module QtWidgets {

  /** A Python value read from a dict with `.get(key)`: key absent, `None`, or an integer. */
  datatype Field = Absent | Null | Int(value: int)

  /** Python truthiness of the value (`None`, a missing key and `0` are false). */
  predicate Truthy(f: Field) {
    f.Int? && f.value != 0
  }

  /** Python's `a or b`. */
  function Or(a: Field, b: Field): (r: Field)
    ensures Truthy(a) ==> r == a
    ensures !Truthy(a) ==> r == b
  {
    if Truthy(a) then a else b
  }

  /** `d.get(key)`: a missing key reads as `None`. */
  function OrNull(f: Field): (r: Field)
    ensures r != Absent
    ensures f != Absent ==> r == f
  {
    if f.Absent? then Null else f
  }

  /** `d.get(key, default)`. */
  function GetOr(f: Field, default: int): (r: Field)
    ensures r != Absent
    ensures f.Absent? ==> r == Int(default)
    ensures !f.Absent? ==> r == f
  {
    if f.Absent? then Int(default) else f
  }

  datatype ComboItem = ComboItem(text: string, data: Field)

  /**
   * A `QComboBox`: its items and current index (-1 when there is no current
   * item, which an empty box never has and a box showing a placeholder text
   * may have while it holds items).
   */
  datatype ComboBox = ComboBox(items: seq<ComboItem>, index: int) {
    predicate Valid() {
      -1 <= index < |items|
    }

    /** `clear()`: no items, index -1. */
    function Clear(): (c: ComboBox)
      ensures c.Valid() && c.items == []
    {
      ComboBox([], -1)
    }

    /** Whether `clear()` emits `currentIndexChanged`: only when the index was not already -1. */
    predicate ClearSignals() {
      index != -1
    }

    /** `addItem(text, data)`: appended; the first item of an empty box becomes current. */
    function Add(item: ComboItem): (c: ComboBox)
      requires Valid()
      ensures c.Valid() && c.items == items + [item]
      ensures c.index == if items == [] then 0 else index
    {
      ComboBox(items + [item], if items == [] then 0 else index)
    }

    /** Whether `addItem` emits `currentIndexChanged`: only when it makes the first item current. */
    predicate AddSignals() {
      items == []
    }

    /** `currentData()`: the current item's data, `None` when there is no current item. */
    function CurrentData(): (d: Field)
      ensures index < 0 || index >= |items| ==> d == Null
      ensures 0 <= index < |items| ==> d == items[index].data
    {
      if 0 <= index < |items| then items[index].data else Null
    }
  }

  /** `findData(d)` on a combo box holding `items`: the first item holding `d`, or -1. */
  function FindData(items: seq<ComboItem>, d: Field): (i: int)
    ensures -1 <= i < |items|
    ensures i >= 0 ==> items[i].data == d && forall k | 0 <= k < i :: items[k].data != d
    ensures i == -1 ==> forall k | 0 <= k < |items| :: items[k].data != d
  {
    if items == [] then -1
    else if items[0].data == d then 0
    else
      var i := FindData(items[1..], d);
      assert forall k | 1 <= k < |items| :: items[k] == items[1..][k - 1];
      if i == -1 then -1 else i + 1
  }

  function EmptyCombo(): (c: ComboBox)
    ensures c.Valid() && c.items == [] && c.index == -1
  {
    ComboBox([], -1)
  }

  /** A `QSpinBox`: range and value. Qt keeps `minimum <= value <= maximum`. */
  datatype SpinBox = SpinBox(minimum: int, maximum: int, value: int) {
    predicate Valid() {
      minimum <= value <= maximum
    }

    function Clamp(v: int): int {
      if v < minimum then minimum else if v > maximum then maximum else v
    }

    /** `setMinimum(m)`: a maximum below `m` is raised to it; the value is clamped. */
    function SetMinimum(m: int): (s: SpinBox)
      requires Valid()
      ensures s.Valid() && s.minimum == m && s.maximum == if maximum < m then m else maximum
      ensures value >= m && value <= s.maximum ==> s.value == value
    {
      var hi := if maximum < m then m else maximum;
      var v := if value < m then m else if value > hi then hi else value;
      SpinBox(m, hi, v)
    }

    /** `setMaximum(m)`: a minimum above `m` is lowered to it; the value is clamped. */
    function SetMaximum(m: int): (s: SpinBox)
      requires Valid()
      ensures s.Valid() && s.maximum == m && s.minimum == if minimum > m then m else minimum
      ensures value <= m && value >= s.minimum ==> s.value == value
    {
      var lo := if minimum > m then m else minimum;
      var v := if value < lo then lo else if value > m then m else value;
      SpinBox(lo, m, v)
    }

    /** `setValue(v)`: the value is clamped into the range. */
    function SetValue(v: int): (s: SpinBox)
      requires Valid()
      ensures s.Valid() && s.minimum == minimum && s.maximum == maximum
      ensures minimum <= v <= maximum ==> s.value == v
      ensures v < minimum ==> s.value == minimum
      ensures v > maximum ==> s.value == maximum
    {
      SpinBox(minimum, maximum, Clamp(v))
    }
  }

  /** A new `QSpinBox`: range 0..99, value 0. */
  function NewSpinBox(): (s: SpinBox)
    ensures s.Valid()
  {
    SpinBox(0, 99, 0)
  }
}
