/** `reduceCheckedAnnotations` and `getRepeatedAnnotations`. */
module AnnotationFns {
  import opened Wrappers
  import opened Domain
  import opened Decimal
  import CommunFns

  /** The `{ids, value}` record that a batch reversal is computed from. */
  datatype Reduced = Reduced(ids: seq<int>, value: Money)

  /** `['recived', 'payed'].includes(status)`. */
  predicate IsChecked(a: Annotation)
  {
    IsConfirmed(a.status)
  }

  /** An annotation's signed amount: positive for a payment, negative for anything else. */
  function Signed(a: Annotation): Money
  {
    if a.annonType == Payment then a.value else -a.value
  }

  /** Reference definition: the ids of the checked annotations, in input order. */
  function CheckedIds(anns: seq<Annotation>): seq<int>
    decreases |anns|
  {
    if anns == [] then []
    else (if IsChecked(anns[0]) then [anns[0].id] else []) + CheckedIds(anns[1..])
  }

  /** Reference definition: the sum of the signed amounts of the checked annotations. */
  function CheckedTotal(anns: seq<Annotation>): Money
    decreases |anns|
  {
    if anns == [] then 0
    else (if IsChecked(anns[0]) then Signed(anns[0]) else 0) + CheckedTotal(anns[1..])
  }

  /** The reducer callback. */
  function ReduceStep(acc: Reduced, curr: Annotation): Reduced
  {
    if IsChecked(curr) then
      Reduced(acc.ids + [curr.id], if curr.annonType == Payment then acc.value + curr.value else acc.value - curr.value)
    else acc
  }

  /** `Array.prototype.reduce`: a left fold from the given accumulator. */
  function FoldLeft(acc: Reduced, anns: seq<Annotation>): Reduced
    decreases |anns|
  {
    if anns == [] then acc else FoldLeft(ReduceStep(acc, anns[0]), anns[1..])
  }

  /** The left fold agrees with the two reference definitions from any accumulator. */
  lemma {:induction false} FoldLeftMatchesReference(acc: Reduced, anns: seq<Annotation>)
    ensures FoldLeft(acc, anns) == Reduced(acc.ids + CheckedIds(anns), acc.value + CheckedTotal(anns))
    decreases |anns|
  {
    if anns == [] {
      assert acc.ids + [] == acc.ids;
    } else {
      var next := ReduceStep(acc, anns[0]);
      FoldLeftMatchesReference(next, anns[1..]);
      assert next.ids == acc.ids + (if IsChecked(anns[0]) then [anns[0].id] else []);
      assert acc.ids + CheckedIds(anns)
        == acc.ids + ((if IsChecked(anns[0]) then [anns[0].id] else []) + CheckedIds(anns[1..]));
    }
  }

  /**
   * `reduceCheckedAnnotations`: the ids of the confirmed annotations in input
   * order, and the sum of their signed amounts.
   */
  function ReduceCheckedAnnotations(anns: seq<Annotation>): (r: Reduced)
    ensures r.ids == CheckedIds(anns) && r.value == CheckedTotal(anns)
  {
    FoldLeftMatchesReference(Reduced([], 0), anns);
    FoldLeft(Reduced([], 0), anns)
  }

  /** An id is collected exactly when some confirmed annotation carries it. */
  lemma {:induction false} CheckedIdsMembership(anns: seq<Annotation>, id: int)
    ensures id in CheckedIds(anns) <==> exists a | a in anns :: IsChecked(a) && a.id == id
    decreases |anns|
  {
    if anns != [] {
      CheckedIdsMembership(anns[1..], id);
      assert forall a | a in anns :: a == anns[0] || a in anns[1..];
    }
  }

  /** Unconfirmed annotations change nothing, wherever they appear. */
  lemma {:induction false} UncheckedAreIgnored(anns: seq<Annotation>, a: Annotation, rest: seq<Annotation>)
    requires !IsChecked(a)
    ensures ReduceCheckedAnnotations(anns + [a] + rest) == ReduceCheckedAnnotations(anns + rest)
    decreases |anns|
  {
    if anns == [] {
      assert [a] + rest == anns + [a] + rest;
      assert rest == anns + rest;
      assert ([a] + rest)[1..] == rest;
    } else {
      UncheckedAreIgnored(anns[1..], a, rest);
      assert (anns + [a] + rest)[1..] == anns[1..] + [a] + rest;
      assert (anns + rest)[1..] == anns[1..] + rest;
      assert (anns + [a] + rest)[0] == anns[0] && (anns + rest)[0] == anns[0];
    }
  }

  /** A list of unconfirmed annotations, and in particular the empty list, reduces to `{ids: [], value: 0}`. */
  lemma {:induction false} NothingCheckedReducesToZero(anns: seq<Annotation>)
    requires forall a | a in anns :: !IsChecked(a)
    ensures ReduceCheckedAnnotations(anns) == Reduced([], 0)
    decreases |anns|
  {
    if anns != [] {
      NothingCheckedReducesToZero(anns[1..]);
    }
  }

  // ----- getRepeatedAnnotations -----

  /**
   * dayjs's `add(n, unit)` on a `YYYY-MM-DD` date, kept abstract: the model
   * takes it as a parameter.
   */
  type AddUnits = (Date, nat, string) -> Date

  /** The `i`-th copy (`i > 0`) of a repeating annotation. */
  function Repetition(a: NewAnnotation, i: nat, addUnits: AddUnits): NewAnnotation
    requires a.repeat.Every?
  {
    a.(name := a.name + " - " + FromNat(i + 1),
       description := a.description + " - " + FromNat(i + 1) + " - repeated generate",
       date := addUnits(a.date, i, a.repeat.unit))
  }

  /**
   * `getRepeatedAnnotations(annotation, quantity)`: the annotation alone when
   * it never repeats or one copy at most is asked for; otherwise `quantity`
   * drafts whose `i`-th is `i` units after the original.
   */
  function GetRepeatedAnnotations(a: NewAnnotation, quantity: int, addUnits: AddUnits): (r: seq<NewAnnotation>)
    ensures a.repeat == Never || quantity <= 1 ==> r == [a]
    ensures a.repeat != Never && quantity > 1 ==> |r| == quantity
    ensures |r| > 0 && r[0] == a
    ensures forall i | 0 < i < |r| :: r[i].(name := a.name, description := a.description, date := a.date) == a
    ensures forall i | 0 < i < |r| :: r[i].date == addUnits(a.date, i, a.repeat.unit)
    ensures forall i | 0 < i < |r| :: r[i].name == a.name + " - " + FromNat(i + 1)
    ensures forall i | 0 < i < |r| :: r[i].description == a.description + " - " + FromNat(i + 1) + " - repeated generate"
  {
    if a.repeat == Never || quantity <= 1 then [a]
    else seq(quantity, (i: int) requires 0 <= i < quantity => if i > 0 then Repetition(a, i, addUnits) else a)
  }

  /** The drafts of one expansion all have different names. */
  lemma RepeatedNamesAreDistinct(a: NewAnnotation, quantity: int, addUnits: AddUnits, i: nat, j: nat)
    requires i < j < |GetRepeatedAnnotations(a, quantity, addUnits)|
    ensures GetRepeatedAnnotations(a, quantity, addUnits)[i].name != GetRepeatedAnnotations(a, quantity, addUnits)[j].name
  {
    var r := GetRepeatedAnnotations(a, quantity, addUnits);
    var prefix := a.name + " - ";
    if i == 0 {
      assert |r[j].name| > |a.name|;
    } else if r[i].name == r[j].name {
      assert r[i].name == prefix + FromNat(i + 1) && r[j].name == prefix + FromNat(j + 1);
      assert FromNat(i + 1) == r[i].name[|prefix|..];
      assert FromNat(j + 1) == r[j].name[|prefix|..];
      FromNatInjective(i + 1, j + 1);
    }
  }

  /** The index marker after `" - "` in a draft's name reads back as its position, counted from 1. */
  lemma RepeatedNameMarkerParses(a: NewAnnotation, quantity: int, addUnits: AddUnits, i: nat)
    requires 0 < i < |GetRepeatedAnnotations(a, quantity, addUnits)|
    ensures CommunFns.ParseInt(GetRepeatedAnnotations(a, quantity, addUnits)[i].name[|a.name| + 3..]) == Some(i + 1)
  {
    var r := GetRepeatedAnnotations(a, quantity, addUnits);
    assert r[i].name[|a.name| + 3..] == FromNat(i + 1) + [];
    CommunFns.ParseIntReadsPrintedNumber(i + 1, []);
  }
}
