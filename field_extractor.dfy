/** What every field extractor returns: a value or nothing, and its `out double confidence`. */
module FieldExtractor {
  import opened Wrappers

  datatype Extraction<T> = Extraction(value: Option<T>, confidence: real)

  function NotFound<T>(): Extraction<T> { Extraction(None, 0.0) }

  function Found<T>(v: T, confidence: real): Extraction<T> { Extraction(Some(v), confidence) }

  /** The contract of the extractor interface: the confidence lies in [0, 1], and it is 0
      exactly when no value was found. */
  predicate WellScored<T>(r: Extraction<T>) {
    (r.value.None? <==> r.confidence == 0.0) && 0.0 <= r.confidence <= 1.0
  }

  /** Each stage of a chain scores its hit with a confidence in (0, 1]. */
  predicate Scored<T>(stages: seq<Extraction<T>>) {
    forall i :: 0 <= i < |stages| ==> 0.0 < stages[i].confidence <= 1.0
  }

  /** Stage `i` is the first stage of the chain that finds a value. */
  predicate FirstHit<T>(stages: seq<Extraction<T>>, i: nat) {
    i < |stages| && stages[i].value.Some? && forall j :: 0 <= j < i ==> stages[j].value.None?
  }

  /** A chain of "try this, else try the next": the first stage that finds a value decides
      the value and the confidence; nothing, with confidence 0, when every stage fails. */
  function FirstFound<T(==)>(stages: seq<Extraction<T>>): (r: Extraction<T>)
    ensures r.value.None? ==> r == NotFound()
    ensures Scored(stages) ==> WellScored(r)
    ensures (forall i :: 0 <= i < |stages| ==> WellScored(stages[i])) ==> WellScored(r)
  {
    if stages == [] then NotFound()
    else if stages[0].value.Some? then stages[0]
    else FirstFound(stages[1..])
  }

  /** The chain's value comes from its first hit, and it finds nothing exactly when no stage
      does. */
  lemma {:induction false} FirstFoundSpec<T>(stages: seq<Extraction<T>>)
    ensures var r := FirstFound(stages);
            r.value.Some? ==> exists i: nat :: FirstHit(stages, i) && r == stages[i]
    ensures FirstFound(stages).value.None? <==> forall i :: 0 <= i < |stages| ==> stages[i].value.None?
  {
    if stages != [] && stages[0].value.None? {
      var rest := stages[1..];
      FirstFoundSpec(rest);
      if FirstFound(rest).value.Some? {
        var i: nat :| FirstHit(rest, i) && FirstFound(rest) == rest[i];
        assert FirstHit(stages, i + 1);
      }
      assert forall i :: 1 <= i < |stages| ==> stages[i] == rest[i - 1];
    }
  }

  lemma {:induction false} FirstFoundAt<T>(stages: seq<Extraction<T>>, i: nat)
    requires FirstHit(stages, i)
    ensures FirstFound(stages) == stages[i]
  {
    if i > 0 {
      var rest := stages[1..];
      assert stages[0].value.None?;
      assert FirstHit(rest, i - 1) by {
        assert forall j :: 0 <= j < i - 1 ==> rest[j] == stages[j + 1];
      }
      FirstFoundAt(rest, i - 1);
    }
  }

  /** A chain run in two parts: the second part is consulted only when the first finds
      nothing. */
  lemma {:induction false} FirstFoundConcat<T>(a: seq<Extraction<T>>, b: seq<Extraction<T>>)
    ensures FirstFound(a + b) == if FirstFound(a).value.Some? then FirstFound(a) else FirstFound(b)
    decreases |a|
  {
    if a == [] {
      assert a + b == b;
    } else {
      assert (a + b)[0] == a[0] && (a + b)[1..] == a[1..] + b;
      if a[0].value.None? {
        FirstFoundConcat(a[1..], b);
      }
    }
  }

  lemma ScoredConcat<T>(a: seq<Extraction<T>>, b: seq<Extraction<T>>)
    requires Scored(a) && Scored(b)
    ensures Scored(a + b)
  {
    forall i | 0 <= i < |a + b| ensures 0.0 < (a + b)[i].confidence <= 1.0 {
      if i < |a| { assert (a + b)[i] == a[i]; } else { assert (a + b)[i] == b[i - |a|]; }
    }
  }

  /** The position of the first value present from `i` on: a foreach with an early return. */
  function FirstSome<T>(vs: seq<Option<T>>, i: nat): (r: Option<nat>)
    decreases |vs| - i
    ensures r.Some? ==> i <= r.value < |vs| && vs[r.value].Some?
    ensures r.Some? ==> forall j :: i <= j < r.value ==> vs[j].None?
    ensures r.None? ==> forall j :: i <= j < |vs| ==> vs[j].None?
  {
    if i >= |vs| then None
    else if vs[i].Some? then Some(i)
    else FirstSome(vs, i + 1)
  }

  /** A chain given as the values its stages find and, separately, their confidences. */
  function Chain<T>(vs: seq<Option<T>>, cs: seq<real>): (stages: seq<Extraction<T>>)
    requires |vs| == |cs|
    ensures |stages| == |vs|
    ensures forall i :: 0 <= i < |vs| ==> stages[i] == Extraction(vs[i], cs[i])
    ensures (forall i :: 0 <= i < |cs| ==> 0.0 < cs[i] <= 1.0) ==> Scored(stages)
  {
    seq(|vs|, i requires 0 <= i < |vs| => Extraction(vs[i], cs[i]))
  }

  /** A chain whose first value present is at `i` returns it, with the confidence of stage
      `i`. */
  lemma ChainHit<T>(vs: seq<Option<T>>, cs: seq<real>, i: nat)
    requires |vs| == |cs| && i < |vs| && vs[i].Some?
    requires forall j :: 0 <= j < i ==> vs[j].None?
    ensures FirstFound(Chain(vs, cs)) == Found(vs[i].value, cs[i])
  {
    FirstFoundAt(Chain(vs, cs), i);
  }

  /** A chain in which no stage finds a value returns nothing, with confidence 0. */
  lemma ChainMiss<T>(vs: seq<Option<T>>, cs: seq<real>)
    requires |vs| == |cs|
    requires forall j :: 0 <= j < |vs| ==> vs[j].None?
    ensures FirstFound(Chain(vs, cs)) == NotFound()
  {
    FirstFoundSpec(Chain(vs, cs));
  }

  /** Two chains run one after the other: the second is consulted only when the first finds
      nothing. */
  lemma ChainThen<T>(a: seq<Option<T>>, b: seq<Option<T>>, ca: seq<real>, cb: seq<real>)
    requires |a| == |ca| && |b| == |cb|
    ensures FirstFound(Chain(a + b, ca + cb))
            == if FirstFound(Chain(a, ca)).value.Some? then FirstFound(Chain(a, ca)) else FirstFound(Chain(b, cb))
  {
    assert Chain(a + b, ca + cb) == Chain(a, ca) + Chain(b, cb);
    FirstFoundConcat(Chain(a, ca), Chain(b, cb));
  }

  /** The first value present is at `i` when it is there and nowhere between `from` and `i`. */
  lemma {:induction false} FirstSomeAt<T>(vs: seq<Option<T>>, from: nat, i: nat)
    requires from <= i < |vs| && vs[i].Some? && forall j :: from <= j < i ==> vs[j].None?
    ensures FirstSome(vs, from) == Some(i)
    decreases i - from
  {
    if from < i {
      FirstSomeAt(vs, from + 1, i);
    }
  }
}
