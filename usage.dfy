/** The usage evaluator: the CDT traffic sum, the usage percentage against the
    quota, and how both are written into logs and messages. Percentages are kept
    as whole hundredths of a percent (9612 stands for 96.12%), so that Python's
    `round(x, 2)` becomes a rounding of an exact fraction. */
module Usage {
  import opened Wrappers
  import opened Text

  /** Python's `round` on an exact fraction `n / d`: to the nearest integer,
      ties to the even one. */
  function RoundHalfEven(n: nat, d: nat): (r: nat)
    requires d > 0
  {
    var q, m := n / d, n % d;
    if 2 * m < d then q
    else if 2 * m > d then q + 1
    else if q % 2 == 0 then q else q + 1
  }

  /** `r` is an integer nearest to `n / d`. */
  predicate Nearest(n: int, d: int, r: int) {
    d > 0 && -d <= 2 * (n - r * d) <= d
  }

  /** `n / d` lies exactly half-way between `r` and a neighbour. */
  predicate Tie(n: int, d: int, r: int) {
    2 * (n - r * d) == d || 2 * (n - r * d) == -d
  }

  /** The rounded value is a nearest integer, and an even one on a tie. */
  lemma RoundHalfEvenSpec(n: nat, d: nat)
    requires d > 0
    ensures Nearest(n, d, RoundHalfEven(n, d))
    ensures Tie(n, d, RoundHalfEven(n, d)) ==> RoundHalfEven(n, d) % 2 == 0
  {
    var q, m := n / d, n % d;
    assert n == q * d + m;
    assert (q + 1) * d == q * d + d;
  }

  /** A larger factor gives a product larger by at least one (two) multiples of `d`. */
  lemma MulGap(r: int, s: int, d: nat)
    requires r < s
    ensures r * d + d <= s * d
    ensures s >= r + 2 ==> r * d + 2 * d <= s * d
  {
    var k := s - r;
    assert s * d == r * d + k * d;
    assert k * d >= d;
    if k >= 2 {
      assert k * d == 2 * d + (k - 2) * d;
    }
  }

  /** Those two facts pin the rounded value down: no other integer has them. */
  lemma RoundHalfEvenUnique(n: nat, d: nat, r: int)
    requires Nearest(n, d, r)
    requires Tie(n, d, r) ==> r % 2 == 0
    ensures r == RoundHalfEven(n, d)
  {
    RoundHalfEvenSpec(n, d);
    var r' := RoundHalfEven(n, d);
    if r < r' {
      MulGap(r, r', d);
      // n within half a step of both makes them neighbours at a tie, both even
      assert false;
    } else if r' < r {
      MulGap(r', r, d);
      assert false;
    }
  }

  /** Rounding never decreases when the numerator grows. */
  lemma RoundHalfEvenMonotone(n1: nat, n2: nat, d: nat)
    requires d > 0 && n1 <= n2
    ensures RoundHalfEven(n1, d) <= RoundHalfEven(n2, d)
  {
    var r1, r2 := RoundHalfEven(n1, d), RoundHalfEven(n2, d);
    RoundHalfEvenSpec(n1, d);
    RoundHalfEvenSpec(n2, d);
    if r2 < r1 {
      MulGap(r2, r1, d);
      // n1 would lie above r2's half-way point and n2 below it
      assert false;
    }
  }

  /** One `TrafficDetails` entry of `ListCdtInternetTraffic`; its `Traffic` field
      (bytes) may be absent. */
  datatype TrafficItem = TrafficItem(traffic: Option<nat>)

  /** The result of `get_traffic`: the byte total, or the failure it swallowed
      (it then returns the integer 0). */
  datatype TrafficReading = Measured(bytes: nat) | FetchFailed(reason: string)

  /** `sum(item.get('Traffic', 0) for item in items)`. */
  function SumTraffic(items: seq<TrafficItem>): nat
  {
    if items == [] then 0 else SumTraffic(items[..|items| - 1]) + items[|items| - 1].traffic.GetOr(0)
  }

  /** The sum over a concatenation is the sum of the sums. */
  lemma {:induction false} SumTrafficAppend(a: seq<TrafficItem>, b: seq<TrafficItem>)
    ensures SumTraffic(a + b) == SumTraffic(a) + SumTraffic(b)
  {
    if b != [] {
      assert (a + b)[..|a + b| - 1] == a + b[..|b| - 1];
      SumTrafficAppend(a, b[..|b| - 1]);
    } else {
      assert a + b == a;
    }
  }

  /** Every present `Traffic` value is part of the total; absent ones count 0. */
  lemma {:induction false} SumTrafficCounts(items: seq<TrafficItem>, i: nat)
    requires i < |items|
    ensures items[i].traffic.GetOr(0) <= SumTraffic(items)
    ensures SumTraffic(items) == SumTraffic(items[..i]) + items[i].traffic.GetOr(0) + SumTraffic(items[i + 1..])
  {
    assert items == items[..i] + [items[i]] + items[i + 1..];
    SumTrafficAppend(items[..i] + [items[i]], items[i + 1..]);
    SumTrafficAppend(items[..i], [items[i]]);
    assert ([] + [items[i]])[..0] == [];
  }

  /** `get_traffic`: a failed `ListCdtInternetTraffic` call is swallowed; a missing
      `TrafficDetails` list counts as empty. */
  function GetTraffic(response: Result<Option<seq<TrafficItem>>>): (r: TrafficReading)
    ensures response.Err? <==> r.FetchFailed?
    ensures response.Ok? && response.value.None? ==> r == Measured(0)
    ensures response.Ok? && response.value.Some? ==> r == Measured(SumTraffic(response.value.value))
  {
    match response
    case Err(e) => FetchFailed(e)
    case Ok(details) => Measured(SumTraffic(details.GetOr([])))
  }

  /** The traffic the usage is computed from: a failed fetch reads as zero. */
  function Bytes(r: TrafficReading): nat {
    match r
    case Measured(b) => b
    case FetchFailed(_) => 0
  }

  const GiB: nat := 1024 * 1024 * 1024

  /** The usage threshold, 95%, in hundredths of a percent. */
  const Threshold: nat := 9500

  /** `round(traffic / maxTraffic * 100, 2)` in hundredths of a percent, where
      `traffic` is the byte total divided by 1024^3 and `maxTraffic` the quota in
      GB; `None` where Python raises ZeroDivisionError (a zero quota). */
  function UsageHundredths(bytes: nat, maxTraffic: nat): (u: Option<nat>)
    ensures u.None? <==> maxTraffic == 0
    ensures u.Some? ==> Nearest(bytes * 10000, maxTraffic * GiB, u.value)
    ensures u.Some? && Tie(bytes * 10000, maxTraffic * GiB, u.value) ==> u.value % 2 == 0
  {
    if maxTraffic == 0 then None
    else
      RoundHalfEvenSpec(bytes * 10000, maxTraffic * GiB);
      Some(RoundHalfEven(bytes * 10000, maxTraffic * GiB))
  }

  /** No traffic is 0.0%; traffic equal to the quota is 100.0%. */
  lemma UsageEndpoints(maxTraffic: nat)
    requires maxTraffic > 0
    ensures UsageHundredths(0, maxTraffic) == Some(0)
    ensures UsageHundredths(maxTraffic * GiB, maxTraffic) == Some(10000)
  {
    var d := maxTraffic * GiB;
    RoundHalfEvenUnique(0, d, 0);
    assert (maxTraffic * GiB) * 10000 == 10000 * d;
    RoundHalfEvenUnique((maxTraffic * GiB) * 10000, d, 10000);
  }

  /** More traffic never shows a smaller percentage. */
  lemma UsageMonotone(b1: nat, b2: nat, maxTraffic: nat)
    requires maxTraffic > 0 && b1 <= b2
    ensures UsageHundredths(b1, maxTraffic).value <= UsageHundredths(b2, maxTraffic).value
  {
    RoundHalfEvenMonotone(b1 * 10000, b2 * 10000, maxTraffic * GiB);
  }

  /** The 95% line in bytes: the rounded usage reaches 95.00% exactly when the
      traffic is at least 94.995% of the quota. */
  lemma UsageReachesThreshold(bytes: nat, maxTraffic: nat)
    requires maxTraffic > 0
    ensures UsageHundredths(bytes, maxTraffic).value >= Threshold
        <==> 2 * (bytes * 10000) >= (2 * Threshold - 1) * (maxTraffic * GiB)
  {
    var n, d := bytes * 10000, maxTraffic * GiB;
    var u := UsageHundredths(bytes, maxTraffic).value;
    assert Nearest(n, d, u);
    if u >= Threshold {
      if u > Threshold {
        MulGap(Threshold, u, d);
      }
      assert u * d >= Threshold * d;
    } else if u < Threshold - 1 {
      MulGap(u, Threshold - 1, d);
    } else {
      // u is 94.99%: odd, so not a tie, so n lies strictly below the 94.995% point
      RoundHalfEvenSpec(n, d);
      assert !Tie(n, d, u);
    }
  }

  /** `f"{round(traffic, 2)}"`: the integer 0 after a failed fetch prints as
      `0`, a measured total as a float with up to two decimals. */
  function TrafficText(r: TrafficReading): (s: string)
    ensures r.FetchFailed? ==> s == "0"
    ensures r.Measured? ==> ParseHundredths(s) == Some(RoundHalfEven(r.bytes * 100, GiB))
  {
    match r
    case FetchFailed(_) => "0"
    case Measured(b) =>
      FormatHundredthsRoundTrip(RoundHalfEven(b * 100, GiB));
      FormatHundredths(RoundHalfEven(b * 100, GiB))
  }

  /** The text of the ZeroDivisionError a zero quota raises: the failed fetch's
      integer 0 divides as an int, a measured total as a float. */
  function ZeroQuotaMessage(r: TrafficReading): string {
    match r
    case FetchFailed(_) => "division by zero"
    case Measured(_) => "float division by zero"
  }

  const UnknownRegion: string := "未知地区"

  /** `REGION_NAMES`: each known region id with its display name, in the
      order the dictionary lists them. */
  const RegionTable: seq<(string, string)> := [
    ("cn-qingdao", "华北1(青岛)"),
    ("cn-beijing", "华北2(北京)"),
    ("cn-zhangjiakou", "华北3(张家口)"),
    ("cn-huhehaote", "华北5(呼和浩特)"),
    ("cn-wulanchabu", "华北6(乌兰察布)"),
    ("cn-hangzhou", "华东1(杭州)"),
    ("cn-shanghai", "华东2(上海)"),
    ("cn-nanjing", "华东5 (南京-本地地域)"),
    ("cn-fuzhou", "华东6(福州-本地地域)"),
    ("cn-wuhan-lr", "华中1(武汉-本地地域)"),
    ("cn-shenzhen", "华南1(深圳)"),
    ("cn-heyuan", "华南2(河源)"),
    ("cn-guangzhou", "华南3(广州)"),
    ("cn-chengdu", "西南1(成都)"),
    ("cn-hongkong", "中国香港"),
    ("ap-southeast-1", "新加坡"),
    ("ap-southeast-2", "澳大利亚(悉尼)"),
    ("ap-southeast-3", "马来西亚(吉隆坡)"),
    ("ap-southeast-5", "印度尼西亚(雅加达)"),
    ("ap-southeast-6", "菲律宾(马尼拉)"),
    ("ap-southeast-7", "泰国(曼谷)"),
    ("ap-northeast-1", "日本(东京)"),
    ("ap-northeast-2", "韩国(首尔)"),
    ("us-west-1", "美国(硅谷)"),
    ("us-east-1", "美国(弗吉尼亚)"),
    ("eu-central-1", "德国(法兰克福)"),
    ("eu-west-1", "英国(伦敦)"),
    ("me-east-1", "阿联酋(迪拜)"),
    ("me-central-1", "沙特(利雅得)")
  ]

  /** Some entry of `table` is for `regionId`. */
  predicate Listed(table: seq<(string, string)>, regionId: string) {
    exists j :: 0 <= j < |table| && table[j].0 == regionId
  }

  /** A dictionary lookup with a default: the name of the first entry for
      `regionId`, or 未知地区 when there is none. */
  function Lookup(table: seq<(string, string)>, regionId: string): string
  {
    if table == [] then UnknownRegion
    else if table[0].0 == regionId then table[0].1
    else Lookup(table[1..], regionId)
  }

  /** `get_region_name`. */
  function RegionName(regionId: string): string {
    Lookup(RegionTable, regionId)
  }

  /** The lookup answers with the first entry for the id. */
  lemma {:induction false} LookupFirst(table: seq<(string, string)>, regionId: string, j: nat)
    requires j < |table| && table[j].0 == regionId && !Listed(table[..j], regionId)
    ensures Lookup(table, regionId) == table[j].1
  {
    if j > 0 {
      assert table[..j][0] == table[0];
      assert table[1..][..j - 1] == table[..j][1..];
      LookupFirst(table[1..], regionId, j - 1);
    }
  }

  /** Without an entry for the id the lookup answers with the default. */
  lemma {:induction false} LookupMissing(table: seq<(string, string)>, regionId: string)
    requires !Listed(table, regionId)
    ensures Lookup(table, regionId) == UnknownRegion
  {
    if table != [] {
      assert table[0] == table[0];
      assert forall j :: 0 <= j < |table| - 1 ==> table[1..][j] == table[j + 1];
      LookupMissing(table[1..], regionId);
    }
  }

  /** The dictionary's keys are distinct, so the first entry is the only one. */
  lemma RegionIdsDistinct()
    ensures forall i, j :: 0 <= i < j < |RegionTable| ==> RegionTable[i].0 != RegionTable[j].0
  {
  }

  /** No display name holds a line break. */
  lemma RegionNamesOneLine()
    ensures forall j :: 0 <= j < |RegionTable| ==> '\n' !in RegionTable[j].1
  {
  }

  /** No display name reads 未知地区. */
  lemma RegionNamesNotUnknown()
    ensures forall j :: 0 <= j < |RegionTable| ==> RegionTable[j].1 != UnknownRegion
  {
  }

  /** A listed region id shows its table entry. */
  lemma RegionNameKnown(regionId: string, j: nat)
    requires j < |RegionTable| && RegionTable[j].0 == regionId
    ensures RegionName(regionId) == RegionTable[j].1
  {
    RegionIdsDistinct();
    assert !Listed(RegionTable[..j], regionId);
    LookupFirst(RegionTable, regionId, j);
  }

  /** Any other id shows 未知地区. */
  lemma RegionNameUnknown(regionId: string)
    requires !Listed(RegionTable, regionId)
    ensures RegionName(regionId) == UnknownRegion
  {
    LookupMissing(RegionTable, regionId);
  }

  /** No known region is displayed as 未知地区, so the default marks exactly the
      unknown ids. */
  lemma RegionNameUnknownIff(regionId: string)
    ensures RegionName(regionId) == UnknownRegion <==> !Listed(RegionTable, regionId)
  {
    if Listed(RegionTable, regionId) {
      var j :| 0 <= j < |RegionTable| && RegionTable[j].0 == regionId;
      RegionNameKnown(regionId, j);
      RegionNamesNotUnknown();
    } else {
      RegionNameUnknown(regionId);
    }
  }

  /** A region name fits on one line of a message. */
  lemma RegionNameNoNewline(regionId: string)
    ensures NoNewline(RegionName(regionId))
  {
    if Listed(RegionTable, regionId) {
      var j :| 0 <= j < |RegionTable| && RegionTable[j].0 == regionId;
      RegionNameKnown(regionId, j);
      RegionNamesOneLine();
    } else {
      RegionNameUnknown(regionId);
      assert '\n' !in UnknownRegion;
    }
  }
}
