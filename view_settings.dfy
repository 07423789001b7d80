/**
 * Classification of OpenWeather condition codes into the background brush
 * and the icon shown on the weather screen. Both are Kotlin `when`
 * expressions over integer ranges: the first arm whose range holds the
 * code wins and `else` gives the "unknown" value. The brushes and drawables
 * themselves are kept abstract, one constructor per constant the source names.
 */
module ViewSettings {

  /** One `in lo..hi -> value` arm of a `when`; a single-value arm `c -> value` has lo == hi == c. */
  datatype Arm<T> = Arm(lo: int, hi: int, value: T)
  {
    predicate Matches(id: int) { lo <= id <= hi }
  }

  /** Kotlin `when (id)` over ranges: the value of the first matching arm, else the default. */
  function When<T(==)>(arms: seq<Arm<T>>, default: T, id: int): (r: T)
    ensures (forall k | 0 <= k < |arms| :: !arms[k].Matches(id)) ==> r == default
    ensures (exists k | 0 <= k < |arms| :: arms[k].Matches(id)) ==>
              exists k | 0 <= k < |arms| :: arms[k].Matches(id) && r == arms[k].value
                                            && forall j | 0 <= j < k :: !arms[j].Matches(id)
  {
    if |arms| == 0 then default
    else if arms[0].Matches(id) then arms[0].value
    else
      var r := When(arms[1..], default, id);
      assert forall k | 1 <= k < |arms| :: arms[k] == arms[1..][k - 1];
      if exists k | 0 <= k < |arms| :: arms[k].Matches(id) then
        var k' :| 0 <= k' < |arms[1..]| && arms[1..][k'].Matches(id) && r == arms[1..][k'].value
                   && forall j | 0 <= j < k' :: !arms[1..][j].Matches(id);
        assert arms[k' + 1].Matches(id) && r == arms[k' + 1].value;
        assert forall j | 0 <= j < k' + 1 :: !arms[j].Matches(id) by {
          forall j | 1 <= j < k' + 1 ensures !arms[j].Matches(id) {
            assert arms[j] == arms[1..][j - 1];
          }
        }
        r
      else
        r
  }

  /** No code falls into two arms. */
  predicate Disjoint<T>(arms: seq<Arm<T>>)
  {
    forall i, j | 0 <= i < j < |arms| :: arms[i].hi < arms[j].lo || arms[j].hi < arms[i].lo
  }

  /** In disjoint arms, at most one arm holds a given code. */
  lemma DisjointMatchUnique<T>(arms: seq<Arm<T>>, i: nat, k: nat, id: int)
    requires Disjoint(arms)
    requires i < |arms| && k < |arms| && arms[i].Matches(id) && arms[k].Matches(id)
    ensures i == k
  {
  }

  /** An arm of one table occurs in a rearrangement of it. */
  lemma ArmIn<T>(x: Arm<T>, arms: seq<Arm<T>>, other: seq<Arm<T>>) returns (i: nat)
    requires multiset(arms) == multiset(other)
    requires x in other
    ensures i < |arms| && arms[i] == x
  {
    assert x in multiset(other);
    assert x in arms;
    i :| i < |arms| && arms[i] == x;
  }

  /**
   * For arms that are pairwise disjoint, the order of the arms does not
   * matter: any rearrangement of them gives the same result for every code.
   */
  lemma WhenOrderIrrelevant<T>(arms: seq<Arm<T>>, other: seq<Arm<T>>, default: T, id: int)
    requires Disjoint(arms)
    requires multiset(arms) == multiset(other)
    ensures When(arms, default, id) == When(other, default, id)
  {
    if exists n | 0 <= n < |other| :: other[n].Matches(id) {
      var n :| 0 <= n < |other| && other[n].Matches(id) && When(other, default, id) == other[n].value;
      var i := ArmIn(other[n], arms, other);
      var k :| 0 <= k < |arms| && arms[k].Matches(id) && When(arms, default, id) == arms[k].value;
      DisjointMatchUnique(arms, i, k, id);
    } else {
      forall k | 0 <= k < |arms| ensures !arms[k].Matches(id) {
        var i := ArmIn(arms[k], other, arms);
      }
    }
  }

  /** The seven named condition groups of the OpenWeather code table, plus the fallback. */
  datatype Category =
    | Thunderstorm | Drizzle | Rain | Snow | Atmosphere | Clear | Clouds | Unknown

  /** The brush constants `setBackground` returns. */
  datatype Brush =
    | ThunderstormBrush | DrizzleBrush | RainBrush | SnowBrush
    | AtmosphereBrush | ClearBrush | CloudsBrush | UnknownBrush

  /** The drawable resources `setIcon` returns. */
  datatype Drawable =
    | IcStormWeather | IcFewClouds | IcRainyWeather | IcSnowWeather
    | IcBrokenClouds | IcClearDay | IcCloudyWeather | IcUnknown

  /** The arms of `setBackground`, in source order. */
  const BackgroundArms: seq<Arm<Brush>> := [
    Arm(200, 232, ThunderstormBrush),
    Arm(300, 321, DrizzleBrush),
    Arm(500, 531, RainBrush),
    Arm(600, 622, SnowBrush),
    Arm(701, 781, AtmosphereBrush),
    Arm(800, 800, ClearBrush),
    Arm(801, 804, CloudsBrush)
  ]

  /** The arms of `setIcon`, in source order. */
  const IconArms: seq<Arm<Drawable>> := [
    Arm(200, 232, IcStormWeather),
    Arm(300, 321, IcFewClouds),
    Arm(500, 531, IcRainyWeather),
    Arm(600, 622, IcSnowWeather),
    Arm(701, 781, IcBrokenClouds),
    Arm(800, 800, IcClearDay),
    Arm(801, 804, IcCloudyWeather)
  ]

  /** The seven category ranges, in the order both `when`s list them. */
  const CategoryArms: seq<Arm<Category>> := [
    Arm(200, 232, Thunderstorm),
    Arm(300, 321, Drizzle),
    Arm(500, 531, Rain),
    Arm(600, 622, Snow),
    Arm(701, 781, Atmosphere),
    Arm(800, 800, Clear),
    Arm(801, 804, Clouds)
  ]

  /** The category of a condition code: the partition both functions share. */
  function CategoryOf(id: int): Category
  {
    When(CategoryArms, Unknown, id)
  }

  function BackgroundOf(c: Category): Brush
  {
    match c
    case Thunderstorm => ThunderstormBrush
    case Drizzle => DrizzleBrush
    case Rain => RainBrush
    case Snow => SnowBrush
    case Atmosphere => AtmosphereBrush
    case Clear => ClearBrush
    case Clouds => CloudsBrush
    case Unknown => UnknownBrush
  }

  function IconOf(c: Category): Drawable
  {
    match c
    case Thunderstorm => IcStormWeather
    case Drizzle => IcFewClouds
    case Rain => IcRainyWeather
    case Snow => IcSnowWeather
    case Atmosphere => IcBrokenClouds
    case Clear => IcClearDay
    case Clouds => IcCloudyWeather
    case Unknown => IcUnknown
  }

  /** The arms of a table with every value passed through `f`. */
  function MapArms<T, U>(arms: seq<Arm<T>>, f: T -> U): (r: seq<Arm<U>>)
    ensures |r| == |arms|
    ensures forall k | 0 <= k < |arms| :: r[k] == Arm(arms[k].lo, arms[k].hi, f(arms[k].value))
  {
    seq(|arms|, k requires 0 <= k < |arms| => Arm(arms[k].lo, arms[k].hi, f(arms[k].value)))
  }

  /** Relabelling the arms of a `when` relabels its result. */
  lemma WhenMap<T, U>(arms: seq<Arm<T>>, f: T -> U, default: T, id: int)
    ensures When(MapArms(arms, f), f(default), id) == f(When(arms, default, id))
  {
  }

  /** `setBackground(id)`: the brush of the code's category. */
  function SetBackground(id: int): (b: Brush)
    ensures b == BackgroundOf(CategoryOf(id))
  {
    assert BackgroundArms == MapArms(CategoryArms, BackgroundOf);
    WhenMap(CategoryArms, BackgroundOf, Unknown, id);
    When(BackgroundArms, UnknownBrush, id)
  }

  /** `setIcon(id)`: the icon of the code's category. */
  function SetIcon(id: int): (d: Drawable)
    ensures d == IconOf(CategoryOf(id))
  {
    assert IconArms == MapArms(CategoryArms, IconOf);
    WhenMap(CategoryArms, IconOf, Unknown, id);
    When(IconArms, IcUnknown, id)
  }

  /** The range each named category covers; every other code is Unknown. */
  lemma CategoryRanges(id: int)
    ensures CategoryOf(id) == Thunderstorm <==> 200 <= id <= 232
    ensures CategoryOf(id) == Drizzle <==> 300 <= id <= 321
    ensures CategoryOf(id) == Rain <==> 500 <= id <= 531
    ensures CategoryOf(id) == Snow <==> 600 <= id <= 622
    ensures CategoryOf(id) == Atmosphere <==> 701 <= id <= 781
    ensures CategoryOf(id) == Clear <==> id == 800
    ensures CategoryOf(id) == Clouds <==> 801 <= id <= 804
    ensures CategoryOf(id) == Unknown <==>
              !(200 <= id <= 232 || 300 <= id <= 321 || 500 <= id <= 531 || 600 <= id <= 622
                || 701 <= id <= 781 || id == 800 || 801 <= id <= 804)
  {
    var c := CategoryOf(id);
    if exists k | 0 <= k < |CategoryArms| :: CategoryArms[k].Matches(id) {
      var k :| 0 <= k < |CategoryArms| && CategoryArms[k].Matches(id) && c == CategoryArms[k].value;
      assert c != Unknown;
    } else {
      assert c == Unknown;
      assert !CategoryArms[0].Matches(id) && !CategoryArms[1].Matches(id) && !CategoryArms[2].Matches(id);
      assert !CategoryArms[3].Matches(id) && !CategoryArms[4].Matches(id) && !CategoryArms[5].Matches(id);
      assert !CategoryArms[6].Matches(id);
    }
  }

  /** The seven ranges are pairwise disjoint, in all three tables. */
  lemma TablesDisjoint()
    ensures Disjoint(CategoryArms) && Disjoint(BackgroundArms) && Disjoint(IconArms)
  {
  }

  /** Codes on either side of each range boundary. */
  lemma BoundaryCodes()
    ensures CategoryOf(199) == Unknown && CategoryOf(200) == Thunderstorm
    ensures CategoryOf(232) == Thunderstorm && CategoryOf(233) == Unknown
    ensures CategoryOf(299) == Unknown && CategoryOf(322) == Unknown
    ensures CategoryOf(700) == Unknown && CategoryOf(782) == Unknown
    ensures CategoryOf(800) == Clear && CategoryOf(801) == Clouds
    ensures CategoryOf(804) == Clouds && CategoryOf(805) == Unknown
  {
    CategoryRanges(199); CategoryRanges(200); CategoryRanges(232); CategoryRanges(233);
    CategoryRanges(299); CategoryRanges(322); CategoryRanges(700); CategoryRanges(782);
    CategoryRanges(800); CategoryRanges(801); CategoryRanges(804); CategoryRanges(805);
  }

  /** Clear is the single code 800; Clouds is exactly the four codes 801 to 804. */
  lemma ClearAndCloudsCodes(id: int)
    ensures SetBackground(id) == ClearBrush <==> id == 800
    ensures SetBackground(id) == CloudsBrush <==> id in {801, 802, 803, 804}
  {
    CategoryRanges(id);
  }

  /** Negative codes and the codes between the ranges get the unknown brush and icon. */
  lemma GapsAreUnknown(id: int)
    requires id < 200 || 233 <= id <= 299 || 322 <= id <= 499 || 532 <= id <= 599
             || 623 <= id <= 700 || 782 <= id <= 799 || 805 <= id
    ensures SetBackground(id) == UnknownBrush && SetIcon(id) == IcUnknown
  {
    CategoryRanges(id);
  }

  /** Distinct categories get distinct brushes and distinct icons. */
  lemma LookupsInjective(c: Category, d: Category)
    ensures BackgroundOf(c) == BackgroundOf(d) <==> c == d
    ensures IconOf(c) == IconOf(d) <==> c == d
  {
    match c
    case Thunderstorm =>
    case Drizzle =>
    case Rain =>
    case Snow =>
    case Atmosphere =>
    case Clear =>
    case Clouds =>
    case Unknown =>
  }

  /** Two codes share an icon exactly when they share a background. */
  lemma SameIconIffSameBackground(a: int, b: int)
    ensures SetIcon(a) == SetIcon(b) <==> SetBackground(a) == SetBackground(b)
  {
    LookupsInjective(CategoryOf(a), CategoryOf(b));
  }
}
