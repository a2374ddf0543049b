/**
 * The static data of the calculator component: the per-person monthly
 * minimum living cost of each of the 22 regions (`livingCostData`) and the
 * three display groups that feed the region picker (`regionGroups`).
 */
module CostTable {
  import opened Options

  /** The closed set of regions that are keys of `livingCostData`. */
  datatype Region =
    | Taipei | NewTaipei | Taoyuan | Taichung | Tainan | Kaohsiung
    | Keelung | Yilan | HsinchuCity | HsinchuCounty | Miaoli | Changhua | Nantou
    | Yunlin | ChiayiCity | ChiayiCounty | Pingtung | Taitung | Hualien | Penghu
    | Kinmen | Lienchiang

  /**
   * The key under which the region appears in the table and in the picker;
   * never the empty string, which the component reads as "nothing chosen".
   */
  function Name(r: Region): (key: string)
    ensures key != ""
  {
    match r
    case Taipei => "台北市"
    case NewTaipei => "新北市"
    case Taoyuan => "桃園市"
    case Taichung => "台中市"
    case Tainan => "台南市"
    case Kaohsiung => "高雄市"
    case Keelung => "基隆市"
    case Yilan => "宜蘭縣"
    case HsinchuCity => "新竹市"
    case HsinchuCounty => "新竹縣"
    case Miaoli => "苗栗縣"
    case Changhua => "彰化縣"
    case Nantou => "南投縣"
    case Yunlin => "雲林縣"
    case ChiayiCity => "嘉義市"
    case ChiayiCounty => "嘉義縣"
    case Pingtung => "屏東縣"
    case Taitung => "台東縣"
    case Hualien => "花蓮縣"
    case Penghu => "澎湖縣"
    case Kinmen => "金門縣"
    case Lienchiang => "連江縣"
  }

  /**
   * The value of `livingCostData` for a region: a whole number of NT$ per
   * person per month, never zero or negative.
   */
  function Cost(r: Region): (c: int)
    ensures 14341 <= c <= 20379
  {
    match r
    case Taipei => 20379
    case NewTaipei => 16900
    case Taoyuan => 16768
    case Taichung => 16077
    case Tainan => 15515
    case Kaohsiung => 16040
    case Keelung => 15515
    case Yilan => 15515
    case HsinchuCity => 15515
    case HsinchuCounty => 15515
    case Miaoli => 15515
    case Changhua => 15515
    case Nantou => 15515
    case Yunlin => 15515
    case ChiayiCity => 15515
    case ChiayiCounty => 15515
    case Pingtung => 15515
    case Taitung => 15515
    case Hualien => 15515
    case Penghu => 15515
    case Kinmen => 14341
    case Lienchiang => 14341
  }

  /** The keys of `livingCostData` in their order of declaration. */
  const AllRegions: seq<Region> := [
    Taipei, NewTaipei, Taoyuan, Taichung, Tainan, Kaohsiung,
    Keelung, Yilan, HsinchuCity, HsinchuCounty, Miaoli, Changhua, Nantou,
    Yunlin, ChiayiCity, ChiayiCounty, Pingtung, Taitung, Hualien, Penghu,
    Kinmen, Lienchiang
  ]

  /** Every region is a key of the table. */
  lemma AllRegionsEnumerated(r: Region)
    ensures r in AllRegions
  {
    match r
    case Taipei => assert AllRegions[0] == r;
    case NewTaipei => assert AllRegions[1] == r;
    case Taoyuan => assert AllRegions[2] == r;
    case Taichung => assert AllRegions[3] == r;
    case Tainan => assert AllRegions[4] == r;
    case Kaohsiung => assert AllRegions[5] == r;
    case Keelung => assert AllRegions[6] == r;
    case Yilan => assert AllRegions[7] == r;
    case HsinchuCity => assert AllRegions[8] == r;
    case HsinchuCounty => assert AllRegions[9] == r;
    case Miaoli => assert AllRegions[10] == r;
    case Changhua => assert AllRegions[11] == r;
    case Nantou => assert AllRegions[12] == r;
    case Yunlin => assert AllRegions[13] == r;
    case ChiayiCity => assert AllRegions[14] == r;
    case ChiayiCounty => assert AllRegions[15] == r;
    case Pingtung => assert AllRegions[16] == r;
    case Taitung => assert AllRegions[17] == r;
    case Hualien => assert AllRegions[18] == r;
    case Penghu => assert AllRegions[19] == r;
    case Kinmen => assert AllRegions[20] == r;
    case Lienchiang => assert AllRegions[21] == r;
  }

  /** The table has exactly 22 entries, no region twice. */
  lemma AllRegionsDistinct()
    ensures |AllRegions| == 22
    ensures forall i, j :: 0 <= i < j < |AllRegions| ==> AllRegions[i] != AllRegions[j]
  {
  }

  /**
   * Whether `key` is an own key of `livingCostData`, and which region it
   * names: None where the object has no own property of that name.
   */
  function Lookup(key: string): (found: Option<Region>)
    ensures found.Some? ==> Name(found.value) == key
  {
    match key
    case "台北市" => Some(Taipei)
    case "新北市" => Some(NewTaipei)
    case "桃園市" => Some(Taoyuan)
    case "台中市" => Some(Taichung)
    case "台南市" => Some(Tainan)
    case "高雄市" => Some(Kaohsiung)
    case "基隆市" => Some(Keelung)
    case "宜蘭縣" => Some(Yilan)
    case "新竹市" => Some(HsinchuCity)
    case "新竹縣" => Some(HsinchuCounty)
    case "苗栗縣" => Some(Miaoli)
    case "彰化縣" => Some(Changhua)
    case "南投縣" => Some(Nantou)
    case "雲林縣" => Some(Yunlin)
    case "嘉義市" => Some(ChiayiCity)
    case "嘉義縣" => Some(ChiayiCounty)
    case "屏東縣" => Some(Pingtung)
    case "台東縣" => Some(Taitung)
    case "花蓮縣" => Some(Hualien)
    case "澎湖縣" => Some(Penghu)
    case "金門縣" => Some(Kinmen)
    case "連江縣" => Some(Lienchiang)
    case _ => None
  }

  /** Looking a region's own key up finds that region. */
  lemma LookupName(r: Region)
    ensures Lookup(Name(r)) == Some(r)
  {
    match r
    case Taipei =>
    case NewTaipei =>
    case Taoyuan =>
    case Taichung =>
    case Tainan =>
    case Kaohsiung =>
    case Keelung =>
    case Yilan =>
    case HsinchuCity =>
    case HsinchuCounty =>
    case Miaoli =>
    case Changhua =>
    case Nantou =>
    case Yunlin =>
    case ChiayiCity =>
    case ChiayiCounty =>
    case Pingtung =>
    case Taitung =>
    case Hualien =>
    case Penghu =>
    case Kinmen =>
    case Lienchiang =>
  }

  /** Lookup is the inverse of Name: it finds a region exactly for the table's keys. */
  lemma LookupInvertsName()
    ensures forall r :: Lookup(Name(r)) == Some(r)
    ensures forall key :: Lookup(key).None? <==> forall r :: Name(r) != key
  {
    forall r ensures Lookup(Name(r)) == Some(r) { LookupName(r); }
  }

  /** No two regions share a key. */
  lemma NamesDistinct(a: Region, b: Region)
    ensures Name(a) == Name(b) <==> a == b
  {
    LookupName(a);
    LookupName(b);
  }

  /**
   * `livingCostData[key]`: the per-person cost stored under `key`, or None
   * where the object has no own property `key`. JavaScript then reads
   * `undefined`, or an inherited non-number such as `toString`; either way
   * the product with it is NaN.
   */
  function CostOf(key: string): (c: Option<int>)
    ensures c.None? <==> forall r :: Name(r) != key
    ensures forall r :: Name(r) == key ==> c == Some(Cost(r))
    ensures c.Some? ==> c.value > 0
  {
    LookupInvertsName();
    match Lookup(key)
    case None => None
    case Some(r) => Some(Cost(r))
  }

  /** A region's name looks up that region's cost. */
  lemma CostOfName(r: Region)
    ensures CostOf(Name(r)) == Some(Cost(r))
  {
    LookupName(r);
  }

  /** The published figures the calculator's examples rely on. */
  lemma CostExamples()
    ensures CostOf("台北市") == Some(20379)
    ensures CostOf("新北市") == Some(16900)
    ensures CostOf("金門縣") == Some(14341)
    ensures CostOf("連江縣") == Some(14341)
  {
    assert Lookup("台北市") == Some(Taipei);
    assert Lookup("新北市") == Some(NewTaipei);
    assert Lookup("金門縣") == Some(Kinmen);
    assert Lookup("連江縣") == Some(Lienchiang);
  }

  /** Keys are matched exactly: the empty string and other spellings have no cost. */
  lemma UnknownKeys()
    ensures CostOf("").None?
    ensures CostOf("臺北市").None?
    ensures CostOf("台北").None?
  {
    assert Lookup("").None?;
    assert Lookup("臺北市").None?;
    assert Lookup("台北").None?;
  }

  /** A display group of `regionGroups`: its heading and its regions' keys, in order. */
  datatype Group = Group(heading: string, members: seq<string>)

  /** `regionGroups`, in its declaration order. */
  const RegionGroups: seq<Group> := [
    Group("六都", ["台北市", "新北市", "桃園市", "台中市", "台南市", "高雄市"]),
    Group("台灣省", [
      "基隆市", "宜蘭縣", "新竹市", "新竹縣", "苗栗縣", "彰化縣", "南投縣",
      "雲林縣", "嘉義市", "嘉義縣", "屏東縣", "台東縣", "花蓮縣", "澎湖縣"
    ]),
    Group("福建省", ["金門縣", "連江縣"])
  ]

  /**
   * The values the region picker offers: every group's members, group after
   * group, each group in its own order.
   */
  function PickerOptions(groups: seq<Group>): (options: seq<string>)
    ensures forall g, x :: g in groups && x in g.members ==> x in options
    ensures forall x :: x in options ==> exists g :: g in groups && x in g.members
  {
    if groups == [] then []
    else groups[0].members + PickerOptions(groups[1..])
  }

  /** The keys of `rs`, in the same order. */
  function Names(rs: seq<Region>): (keys: seq<string>)
    ensures |keys| == |rs|
    ensures forall i :: 0 <= i < |rs| ==> keys[i] == Name(rs[i])
  {
    seq(|rs|, i requires 0 <= i < |rs| => Name(rs[i]))
  }

  /** The groups come in the order 六都, 台灣省, 福建省, holding 6, 14 and 2 regions. */
  lemma GroupLayout()
    ensures |RegionGroups| == 3
    ensures RegionGroups[0].heading == "六都" && |RegionGroups[0].members| == 6
    ensures RegionGroups[1].heading == "台灣省" && |RegionGroups[1].members| == 14
    ensures RegionGroups[2].heading == "福建省" && |RegionGroups[2].members| == 2
  {
  }

  /** The picker's options are the three groups' members, one group after another. */
  lemma PickerOptionsOfGroups()
    ensures PickerOptions(RegionGroups) ==
      RegionGroups[0].members + RegionGroups[1].members + RegionGroups[2].members
  {
    assert PickerOptions(RegionGroups[2..]) == RegionGroups[2].members + PickerOptions([]);
  }

  /** 六都 lists the first six keys of the table, in order. */
  lemma MunicipalitiesGroupOrder()
    ensures Names(AllRegions[..6]) == RegionGroups[0].members
  {
  }

  /** 台灣省 lists the next fourteen keys of the table, in order. */
  lemma TaiwanProvinceGroupOrder()
    ensures Names(AllRegions[6..20]) == RegionGroups[1].members
  {
  }

  /** 福建省 lists the last two keys of the table, in order. */
  lemma FujianProvinceGroupOrder()
    ensures Names(AllRegions[20..]) == RegionGroups[2].members
  {
  }

  /** Read one after another, the groups spell out the table's keys in the table's order. */
  lemma GroupsFollowTableOrder()
    ensures Names(AllRegions) ==
      RegionGroups[0].members + RegionGroups[1].members + RegionGroups[2].members
  {
    MunicipalitiesGroupOrder();
    TaiwanProvinceGroupOrder();
    FujianProvinceGroupOrder();
    assert Names(AllRegions) ==
      Names(AllRegions[..6]) + Names(AllRegions[6..20]) + Names(AllRegions[20..]);
  }

  /**
   * The picker lists exactly the keys of `livingCostData`, in the table's
   * own order: the groups partition the table.
   */
  lemma PickerListsTableKeys()
    ensures PickerOptions(RegionGroups) == Names(AllRegions)
  {
    PickerOptionsOfGroups();
    GroupsFollowTableOrder();
  }

  /** Every region of the table is offered by the picker. */
  lemma PickerOffersEveryRegion(r: Region)
    ensures Name(r) in PickerOptions(RegionGroups)
  {
    PickerListsTableKeys();
    AllRegionsEnumerated(r);
    var i :| 0 <= i < |AllRegions| && AllRegions[i] == r;
    assert Names(AllRegions)[i] == Name(r);
  }

  /** No region is offered twice. */
  lemma PickerOptionsDistinct()
    ensures forall i, j :: 0 <= i < j < |PickerOptions(RegionGroups)| ==>
      PickerOptions(RegionGroups)[i] != PickerOptions(RegionGroups)[j]
  {
    PickerListsTableKeys();
    AllRegionsDistinct();
    forall i, j | 0 <= i < j < |AllRegions|
      ensures Names(AllRegions)[i] != Names(AllRegions)[j]
    {
      NamesDistinct(AllRegions[i], AllRegions[j]);
    }
  }

  /**
   * A key chosen through the picker is always found in `livingCostData`, so
   * the lookup of the calculation never reads `undefined`.
   */
  lemma PickedRegionHasCost(key: string)
    requires key in PickerOptions(RegionGroups)
    ensures CostOf(key).Some?
  {
    PickerListsTableKeys();
    var i :| 0 <= i < |Names(AllRegions)| && Names(AllRegions)[i] == key;
    assert Name(AllRegions[i]) == key;
  }
}
