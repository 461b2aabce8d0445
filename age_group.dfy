/** `pd.cut([age], bins=[0, 18, 35, 50, 65, 80, 120], labels=...)[0]` with the
    pandas defaults `right=True` and `include_lowest=False`: bin k is the
    half-open interval (bins[k], bins[k+1]], and an age outside
    (bins[0], bins[|bins|-1]] gets no label (NaN), modelled as `None`. */
module AgeGroup {
  import opened Wrappers

  datatype AgeGroup = UpTo18 | From19To35 | From36To50 | From51To65 | From66To80 | Over80

  const AgeBins: seq<int> := [0, 18, 35, 50, 65, 80, 120]

  const Groups: seq<AgeGroup> := [UpTo18, From19To35, From36To50, From51To65, From66To80, Over80]

  /** The category label pandas stores in the `age_group` column. */
  function GroupLabel(g: AgeGroup): string {
    match g
    case UpTo18 => "0-18"
    case From19To35 => "19-35"
    case From36To50 => "36-50"
    case From51To65 => "51-65"
    case From66To80 => "66-80"
    case Over80 => "81+"
  }

  /** The position of a group among the six ordered labels. */
  function Index(g: AgeGroup): (k: nat)
    ensures k < |Groups| && Groups[k] == g
  {
    match g
    case UpTo18 => 0
    case From19To35 => 1
    case From36To50 => 2
    case From51To65 => 3
    case From66To80 => 4
    case Over80 => 5
  }

  predicate Increasing(bins: seq<int>) {
    forall i, j :: 0 <= i < j < |bins| ==> bins[i] < bins[j]
  }

  /** numpy's `searchsorted(bins, x, side="left")`: the number of bin edges
      strictly below x, that is, the first index whose edge is at least x. */
  function SearchLeft(bins: seq<int>, x: int): (i: nat)
    ensures i <= |bins|
    ensures forall j :: 0 <= j < i ==> bins[j] < x
    ensures i < |bins| ==> x <= bins[i]
  {
    if |bins| == 0 || x <= bins[0] then 0 else 1 + SearchLeft(bins[1..], x)
  }

  /** The code `pd.cut` assigns to x: `searchsorted` minus one, and missing
      when x is at or below the first edge or above the last one. */
  function Cut(bins: seq<int>, x: int): (r: Option<nat>)
    ensures r.Some? ==> r.value + 1 < |bins|
  {
    var i := SearchLeft(bins, x);
    if i == 0 || i == |bins| then None else Some(i - 1)
  }

  /** Cut finds the unique bin (bins[k], bins[k+1]] that contains x, and
      finds none exactly when x lies outside (bins[0], bins[|bins|-1]]. */
  lemma CutInterval(bins: seq<int>, x: int)
    requires |bins| >= 2 && Increasing(bins)
    ensures Cut(bins, x).None? <==> x <= bins[0] || bins[|bins| - 1] < x
    ensures Cut(bins, x).Some? ==>
      var k := Cut(bins, x).value;
      k + 1 < |bins| && bins[k] < x <= bins[k + 1]
  {
  }

  lemma AgeBinsIncreasing()
    ensures |AgeBins| == 7 && Increasing(AgeBins)
  {
  }

  /** In increasing bins, the bin that contains x is the one Cut finds. */
  lemma CutUnique(bins: seq<int>, x: int, k: nat)
    requires Increasing(bins) && k + 1 < |bins| && bins[k] < x <= bins[k + 1]
    ensures Cut(bins, x) == Some(k)
  {
  }

  lemma IndexOfGroup(k: nat)
    requires k < |Groups|
    ensures Index(Groups[k]) == k
  {
  }

  /** The `age_group` value for an age: a group is only ever given to an age
      inside that group's right-closed bin. */
  function AgeGroupOf(age: int): (r: Option<AgeGroup>)
    ensures r.Some? ==> AgeBins[Index(r.value)] < age <= AgeBins[Index(r.value) + 1]
  {
    match Cut(AgeBins, age)
    case None => None
    case Some(k) =>
      AgeBinsIncreasing();
      CutInterval(AgeBins, age);
      IndexOfGroup(k);
      Some(Groups[k])
  }

  /** The lowest and highest age of each bin. */
  function Youngest(g: AgeGroup): int {
    AgeBins[Index(g)] + 1
  }

  function Oldest(g: AgeGroup): int {
    AgeBins[Index(g) + 1]
  }

  /** An age has a group exactly when 1 <= age <= 120. */
  lemma AgeGroupDefined(age: int)
    ensures AgeGroupOf(age).Some? <==> 1 <= age <= 120
  {
    AgeBinsIncreasing();
    CutInterval(AgeBins, age);
  }

  /** An age is labelled g exactly when it lies in g's right-closed bin. */
  lemma AgeGroupInterval(age: int, g: AgeGroup)
    ensures AgeGroupOf(age) == Some(g) <==> Youngest(g) <= age <= Oldest(g)
  {
    var k := Index(g);
    assert Youngest(g) == AgeBins[k] + 1 && Oldest(g) == AgeBins[k + 1];
    AgeBinsIncreasing();
    if AgeGroupOf(age) == Some(g) {
      var r := Cut(AgeBins, age);
      CutInterval(AgeBins, age);
      IndexOfGroup(r.value);
    } else if AgeBins[k] < age <= AgeBins[k + 1] {
      CutUnique(AgeBins, age, k);
    }
  }

  /** Older patients never fall in a younger bracket. */
  lemma {:induction false} AgeGroupMonotone(a: int, b: int)
    requires 1 <= a <= b <= 120
    ensures AgeGroupOf(a).Some? && AgeGroupOf(b).Some?
    ensures Index(AgeGroupOf(a).value) <= Index(AgeGroupOf(b).value)
  {
    AgeGroupDefined(a);
    AgeGroupDefined(b);
    AgeGroupInterval(a, AgeGroupOf(a).value);
    AgeGroupInterval(b, AgeGroupOf(b).value);
  }

  /** The right-closed boundaries, and the ages that get no label. */
  lemma AgeGroupBoundaries()
    ensures AgeGroupOf(18) == Some(UpTo18) && AgeGroupOf(19) == Some(From19To35)
    ensures AgeGroupOf(35) == Some(From19To35) && AgeGroupOf(36) == Some(From36To50)
    ensures AgeGroupOf(50) == Some(From36To50) && AgeGroupOf(65) == Some(From51To65)
    ensures AgeGroupOf(80) == Some(From66To80) && AgeGroupOf(81) == Some(Over80)
    ensures AgeGroupOf(120) == Some(Over80)
    ensures AgeGroupOf(0) == None && AgeGroupOf(121) == None && AgeGroupOf(-5) == None
  {
    AgeGroupInterval(18, UpTo18);
    AgeGroupInterval(19, From19To35);
    AgeGroupInterval(35, From19To35);
    AgeGroupInterval(36, From36To50);
    AgeGroupInterval(50, From36To50);
    AgeGroupInterval(65, From51To65);
    AgeGroupInterval(80, From66To80);
    AgeGroupInterval(81, Over80);
    AgeGroupInterval(120, Over80);
    AgeGroupDefined(0);
    AgeGroupDefined(121);
    AgeGroupDefined(-5);
  }
}
