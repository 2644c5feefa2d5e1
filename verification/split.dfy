/** The five record sets built from the two classes: `all`, `val`, `train`, `noise`
    and `test`. */
module Split {
  import opened PySlice
  import opened Records

  /** The unshuffled contents of the five manifests. */
  datatype SetLists = SetLists(
    all: seq<Record>,
    val: seq<Record>,
    train: seq<Record>,
    noise: seq<string>,
    test: seq<string>)

  /** The audio paths of a list of records. */
  function Audios(rs: seq<Record>): (r: seq<string>)
    ensures |r| == |rs|
    ensures forall i :: 0 <= i < |rs| ==> r[i] == rs[i].audio
  {
    if rs == [] then [] else [rs[0].audio] + Audios(rs[1..])
  }

  /** Building the sets: each class is cut at its own split point; `train` takes the
      negative then the positive prefix, `val` the matching suffixes, `noise` the audio
      paths of the negative prefix; `test` is the listed test files. */
  function BuildSets(c: Classes, frac: Fraction, test: seq<string>): SetLists {
    var negPart := SplitPoint(|c.neg|, frac);
    var posPart := SplitPoint(|c.pos|, frac);
    SetLists(
      c.neg + c.pos,
      Drop(c.neg, negPart) + Drop(c.pos, posPart),
      Take(c.neg, negPart) + Take(c.pos, posPart),
      Audios(Take(c.neg, negPart)),
      test)
  }

  /** For any fraction, `train` and `val` together hold exactly the records of `all`. */
  lemma TrainValCoverAll(c: Classes, frac: Fraction, test: seq<string>)
    ensures var s := BuildSets(c, frac, test);
      && |s.train| + |s.val| == |s.all|
      && multiset(s.train) + multiset(s.val) == multiset(s.all)
  {
    var negPart := SplitPoint(|c.neg|, frac);
    var posPart := SplitPoint(|c.pos|, frac);
    TakeDrop(c.neg, negPart);
    TakeDrop(c.pos, posPart);
    var s := BuildSets(c, frac, test);
    calc {
      multiset(s.train) + multiset(s.val);
      multiset(Take(c.neg, negPart)) + multiset(Take(c.pos, posPart))
        + multiset(Drop(c.neg, negPart)) + multiset(Drop(c.pos, posPart));
      multiset(Take(c.neg, negPart) + Drop(c.neg, negPart))
        + multiset(Take(c.pos, posPart) + Drop(c.pos, posPart));
      multiset(c.neg) + multiset(c.pos);
      multiset(s.all);
    }
  }

  /** For a fraction in [0, 1] each class is cut at `floor(len * frac)`: `train` is
      the two prefixes of exactly that length and `val` the two suffixes. */
  lemma SplitAtFloor(c: Classes, frac: Fraction, test: seq<string>)
    requires UnitInterval(frac)
    ensures var s := BuildSets(c, frac, test);
      var negPart := SplitPoint(|c.neg|, frac);
      var posPart := SplitPoint(|c.pos|, frac);
      && 0 <= negPart <= |c.neg| && 0 <= posPart <= |c.pos|
      && negPart * frac.den <= |c.neg| * frac.num < (negPart + 1) * frac.den
      && posPart * frac.den <= |c.pos| * frac.num < (posPart + 1) * frac.den
      && s.train == c.neg[..negPart] + c.pos[..posPart]
      && s.val == c.neg[negPart..] + c.pos[posPart..]
      && |s.train| == negPart + posPart
  {
    SplitPointIsFloor(|c.neg|, frac);
    SplitPointIsFloor(|c.pos|, frac);
  }

  /** `noise` lists the audio paths of the negative training prefix: it is as long as
      that prefix, and its i-th path is the audio of the i-th `train` record, which is
      a negative record. */
  lemma NoiseIsNegativeTrainPrefix(c: Classes, frac: Fraction, test: seq<string>)
    ensures var s := BuildSets(c, frac, test);
      && |s.noise| == |Take(c.neg, SplitPoint(|c.neg|, frac))|
      && forall i :: 0 <= i < |s.noise| ==>
           i < |s.train| && s.train[i].audio == s.noise[i] && s.train[i] == c.neg[i]
  {
  }

  /** When every negative record points at `data/neg.txt`, every noise path appears
      in `train` paired with that label file. */
  lemma NoiseInTrainAsNegative(c: Classes, frac: Fraction, test: seq<string>)
    requires forall r :: r in c.neg ==> r.labelFile == NegLabelFile
    ensures var s := BuildSets(c, frac, test);
      forall p :: p in s.noise ==> Record(p, NegLabelFile) in s.train
  {
    var s := BuildSets(c, frac, test);
    forall p | p in s.noise ensures Record(p, NegLabelFile) in s.train {
      NoiseIsNegativeTrainPrefix(c, frac, test);
      var i :| 0 <= i < |s.noise| && s.noise[i] == p;
      assert s.train[i] == c.neg[i];
      assert c.neg[i] in c.neg;
    }
  }

  /** 100 negatives and 50 positives split at 0.8 give 80 + 40 training records and
      20 + 10 validation records. */
  lemma HundredAndFiftyAtFourFifths(c: Classes, test: seq<string>)
    requires |c.neg| == 100 && |c.pos| == 50
    ensures var s := BuildSets(c, Fraction(4, 5), test);
      |s.train| == 120 && |s.val| == 30 && |s.noise| == 80
  {
    SplitPointIsFloor(100, Fraction(4, 5));
    SplitPointIsFloor(50, Fraction(4, 5));
    assert SplitPoint(100, Fraction(4, 5)) == 80;
    assert SplitPoint(50, Fraction(4, 5)) == 40;
  }

  /** For a fraction in [0, 1]: `all` is empty exactly when both classes are, `val`
      exactly when both classes are cut at their full length, and `train` exactly when
      both are cut at 0. */
  lemma EmptySets(c: Classes, frac: Fraction, test: seq<string>)
    requires UnitInterval(frac)
    ensures var s := BuildSets(c, frac, test);
      var negPart := SplitPoint(|c.neg|, frac);
      var posPart := SplitPoint(|c.pos|, frac);
      && (s.all == [] <==> c.neg == [] && c.pos == [])
      && (s.val == [] <==> negPart == |c.neg| && posPart == |c.pos|)
      && (s.train == [] <==> negPart == 0 && posPart == 0)
  {
    SplitAtFloor(c, frac, test);
    var s := BuildSets(c, frac, test);
    assert |s.val| == |c.neg| - SplitPoint(|c.neg|, frac) + |c.pos| - SplitPoint(|c.pos|, frac);
  }

  /** At `train_frac = 1` (any fraction `n/n`) every record goes to `train` and `val`
      is empty. */
  lemma FullFractionEmptiesVal(c: Classes, frac: Fraction, test: seq<string>)
    requires frac.num == frac.den
    ensures BuildSets(c, frac, test).val == []
    ensures |BuildSets(c, frac, test).train| == |c.neg| + |c.pos|
  {
    FullSplitPoint(|c.neg|, frac);
    FullSplitPoint(|c.pos|, frac);
    EmptySets(c, frac, test);
    SplitAtFloor(c, frac, test);
  }

  /** A fraction equal to 1 puts the split point at the end of the class. */
  lemma FullSplitPoint(n: nat, frac: Fraction)
    requires frac.num == frac.den
    ensures SplitPoint(n, frac) == n
  {
    var k := SplitPoint(n, frac);
    SplitPointIsFloor(n, frac);
    assert k * frac.den <= n * frac.den < (k + 1) * frac.den;
    assert (k - n) * frac.den <= 0;
    NonPositiveFactor(k - n, frac.den);
    assert (n - k - 1) * frac.den < 0;
    NonPositiveFactor(n - k - 1, frac.den);
  }
}
