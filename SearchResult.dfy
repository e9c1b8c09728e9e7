/** Search-result post-processing: the tag table looked up by (Type, SubType)
    with a fallback, the mapping of a search result to results with tags and
    the two counters, the choice of navigation target when a tile is clicked,
    and the fixed demonstration data. */
module SearchResult {
  import opened Lwc

  /** One item of a search result. Text fields that may be missing are modelled
      as `""`, which is falsy in JavaScript as `undefined` is. */
  datatype SearchRecord = SearchRecord(
    Id: string, Title: string, Summary: string, Type: string, SubType: string,
    UrlName: string, Tags: seq<string>)

  /** Arguments of the remote search call. */
  datatype SearchRequest = SearchRequest(searchKeyword: string, limitNum: nat)

  const SearchLimit: nat := 2000
  const OtherTag := "その他"
  const FallbackUrlName := "リリースノート-テスト"
  const KnowledgePageName := "Article_Detail_Mock2"
  const CasePathPrefix := "/case/"

  /** The tag table: Type, then SubType, to tags. */
  const TagMap: map<string, map<string, seq<string>>> := map[
    "Knowledge" := map[
      "マニュアル" := ["Combosite人事", "マニュアル", "操作手順"],
      "リリースノート" := ["Combosite人事", "リリースノート", "更新情報"],
      "FAQ" := ["Combosite人事", "FAQ", "よくある質問"]],
    "Case" := map[
      "技術サポート" := ["お問い合わせ", "技術サポート", "システム"],
      "バグ報告" := ["お問い合わせ", "バグ報告", "不具合"],
      "機能要求" := ["お問い合わせ", "機能要求", "改善要望"]],
    "Announcement" := map[
      "お知らせ" := ["お知らせ", "重要", "システム"],
      "メンテナンス" := ["お知らせ", "メンテナンス", "システム停止"],
      "緊急連絡" := ["お知らせ", "緊急", "重要"]]
  ]

  /** The nine (Type, SubType) pairs the table knows, listed one by one. */
  predicate KnownPair(itemType: string, subType: string)
  {
    || (itemType == "Knowledge" && (subType == "マニュアル" || subType == "リリースノート" || subType == "FAQ"))
    || (itemType == "Case" && (subType == "技術サポート" || subType == "バグ報告" || subType == "機能要求"))
    || (itemType == "Announcement" && (subType == "お知らせ" || subType == "メンテナンス" || subType == "緊急連絡"))
  }

  /** The first tag each Type leads with. */
  function LeadingTag(itemType: string): string
  {
    if itemType == "Knowledge" then "Combosite人事"
    else if itemType == "Case" then "お問い合わせ"
    else if itemType == "Announcement" then "お知らせ"
    else OtherTag
  }

  /** `tagMap[type]?.[subType] || ['その他']`. Total and never empty: a known
      pair gets its three tags, led by the tag of its Type; every other pair
      gets exactly `['その他']`. */
  function GenerateTags(itemType: string, subType: string): (tags: seq<string>)
    ensures |tags| > 0
    ensures KnownPair(itemType, subType) ==> |tags| == 3 && tags[0] == LeadingTag(itemType)
    ensures !KnownPair(itemType, subType) <==> tags == [OtherTag]
  {
    if itemType in TagMap && subType in TagMap[itemType] then TagMap[itemType][subType] else [OtherTag]
  }

  /** `{ ...item, Tags: generateTags(item.Type, item.SubType) }`. */
  function WithTags(item: SearchRecord): (r: SearchRecord)
    ensures r.(Tags := item.Tags) == item
    ensures r.Tags == GenerateTags(item.Type, item.SubType)
  {
    item.(Tags := GenerateTags(item.Type, item.SubType))
  }

  /** `data.find(item => item.Id === itemId)`, as the index of the first match. */
  function FindById(data: seq<SearchRecord>, itemId: string): (r: Option<nat>)
    ensures r.Some? ==> r.value < |data| && data[r.value].Id == itemId
    ensures r.Some? ==> forall j :: 0 <= j < r.value ==> data[j].Id != itemId
    ensures r.None? ==> forall j :: 0 <= j < |data| ==> data[j].Id != itemId
  {
    if data == [] then None
    else if data[0].Id == itemId then Some(0)
    else
      match FindById(data[1..], itemId)
      case None => None
      case Some(k) => Some(k + 1)
  }

  /** The page a clicked item leads to: a knowledge article opens the article
      page under its URL name (never an empty one: a missing name falls back
      to a fixed article), a case opens `/case/<Id>`, any other type goes
      nowhere. */
  function NavigationFor(item: SearchRecord): (nav: Option<PageRef>)
    ensures nav.Some? <==> item.Type == "Knowledge" || item.Type == "Case"
    ensures item.Type == "Knowledge" ==>
      && nav.value.KnowledgeArticlePage?
      && nav.value.pageName == KnowledgePageName
      && nav.value.urlName != ""
      && (item.UrlName != "" ==> nav.value.urlName == item.UrlName)
      && (item.UrlName == "" ==> nav.value.urlName == FallbackUrlName)
    ensures item.Type == "Case" ==>
      && nav.value.WebPage?
      && |nav.value.url| == |CasePathPrefix| + |item.Id|
      && nav.value.url[..|CasePathPrefix|] == CasePathPrefix
      && nav.value.url[|CasePathPrefix|..] == item.Id
  {
    if item.Type == "Knowledge" then
      var dynamicUrlName := if item.UrlName != "" then item.UrlName else FallbackUrlName;
      Some(KnowledgeArticlePage(KnowledgePageName, dynamicUrlName))
    else if item.Type == "Case" then
      Some(WebPage(CasePathPrefix + item.Id))
    else None
  }

  /** The target of a click on the tile with `itemId`: that of the first item
      with that Id, and none when no item has it. */
  function TileTarget(data: seq<SearchRecord>, itemId: string): (nav: Option<PageRef>)
    ensures (forall j :: 0 <= j < |data| ==> data[j].Id != itemId) ==> nav.None?
    ensures forall k :: 0 <= k < |data| && data[k].Id == itemId && (forall j :: 0 <= j < k ==> data[j].Id != itemId) ==>
      nav == NavigationFor(data[k])
  {
    match FindById(data, itemId)
    case None => None
    case Some(k) => NavigationFor(data[k])
  }

  /** Distinct case Ids lead to distinct case pages. */
  lemma CaseTargetsDistinct(a: SearchRecord, b: SearchRecord)
    requires a.Type == "Case" && b.Type == "Case" && a.Id != b.Id
    ensures NavigationFor(a) != NavigationFor(b)
  {
  }

  /** Title, summary, URL name and tags of each demonstration entry, in order. */
  const DemoContent: seq<(string, string, string, seq<string>)> := [
    ("マスタの終了日登録と削除の違い", "マスタの終了日登録と削除の違いについて説明します。",
      "master-end-date-difference", ["Combosite人事", "Combosite給与", "Combosite共通", "人事設定", "給与設定"]),
    ("発令区分とは", "発令区分の定義と使用方法について説明します。",
      "issuance-category", ["Combosite人事", "発令管理", "発令登録"]),
    ("縦持ちフォーマット・横持ちフォーマットとは", "データフォーマットの種類と使い分けについて説明します。",
      "format-types", ["Combosite人事", "Combosite給与"]),
    ("個人情報変更の確認", "個人情報変更時の確認手順について説明します。",
      "personal-info-change", ["Combosite人事", "Combosite共通", "個人情報管理"]),
    ("人事台帳とは (個人情報・異動履歴)", "人事台帳の機能と使用方法について説明します。",
      "hr-ledger", ["Combosite人事", "従業員管理"]),
    ("発令一覧画面からの確認・編集・削除方法", "発令一覧画面での操作方法について説明します。",
      "issuance-list-operations", ["Combosite人事", "発令管理", "発令一覧(一時保存)", "発令一覧"]),
    ("発令の新規登録方法 (個別登録)", "個別登録での発令登録手順について説明します。",
      "issuance-individual-registration", ["Combosite人事", "発令管理", "発令登録"]),
    ("発令登録における「一時保存」と「確定」の違いについて", "一時保存と確定の違いと使い分けについて説明します。",
      "temporary-save-vs-confirm", ["Combosite人事", "発令登録"])
  ]

  /** The Id of the demonstration entry at position `i`: `demo1` to `demo8`. */
  function DemoId(i: nat): (id: string)
    requires i < 8
    ensures |id| == 5 && id[..4] == "demo" && id[4] == ('1' as int + i) as char
  {
    "demo" + [('1' as int + i) as char]
  }

  /** The fixed demonstration data: eight knowledge manuals with distinct Ids. */
  function GenerateDemoData(): (r: seq<SearchRecord>)
    ensures |r| == 8
    ensures forall i :: 0 <= i < |r| ==> r[i].Id == DemoId(i)
    ensures forall i, j :: 0 <= i < j < |r| ==> r[i].Id != r[j].Id
    ensures forall i :: 0 <= i < |r| ==> r[i].Type == "Knowledge" && r[i].SubType == "マニュアル"
    ensures forall i :: 0 <= i < |r| ==> r[i].UrlName != "" && |r[i].Tags| > 0
  {
    assert forall i :: 0 <= i < 8 ==> DemoContent[i].2 != "" && |DemoContent[i].3| > 0;
    var r := seq(8, i requires 0 <= i < 8 =>
      SearchRecord(DemoId(i), DemoContent[i].0, DemoContent[i].1, "Knowledge", "マニュアル",
        DemoContent[i].2, DemoContent[i].3));
    assert forall i, j :: 0 <= i < j < 8 ==> r[i].Id[4] != r[j].Id[4];
    r
  }

  class SearchResult {
    var data: seq<SearchRecord>
    var term: Option<string>
    var totalCount: int
    var displayCount: int

    constructor (term: Option<string>)
      ensures this.term == term && data == [] && totalCount == 0 && displayCount == 0
    {
      this.term := term;
      data := [];
      totalCount, displayCount := 0, 0;
    }

    /** Connection: without a search term the result is emptied and nothing is
        searched; with one, the search call is issued and nothing changes yet. */
    method ConnectedCallback() returns (request: Option<SearchRequest>)
      modifies this`data, this`totalCount, this`displayCount
      ensures term.None? ==> request.None? && data == [] && totalCount == 0 && displayCount == 0
      ensures term.Some? ==> request == Some(SearchRequest(term.value, SearchLimit)) && unchanged(this)
    {
      if term.Some? {
        request := Some(SearchRequest(term.value, SearchLimit));
      } else {
        request := None;
        data := [];
        totalCount := 0;
        displayCount := 0;
      }
    }

    /** The search resolved: `data` is the result, in order, each item with its
        tags, and both counters are the result's length. */
    method ConnectedCallbackSucceeded(result: seq<SearchRecord>)
      modifies this`data, this`totalCount, this`displayCount
      ensures |data| == |result|
      ensures forall i :: 0 <= i < |result| ==> data[i] == WithTags(result[i])
      ensures totalCount == |result| && displayCount == |result|
    {
      data := seq(|result|, i requires 0 <= i < |result| => WithTags(result[i]));
      totalCount := |result|;
      displayCount := |result|;
    }

    /** The search failed: only console output, nothing changes. */
    method ConnectedCallbackFailed()
      ensures unchanged(this)
    {
    }

    /** A tile click: navigate to the target of the first item with the
        clicked Id, or do nothing. */
    method TileClick(itemId: string) returns (effects: seq<Effect>)
      ensures effects == match TileTarget(data, itemId) case None => [] case Some(p) => [Navigate(p)]
      ensures |effects| <= 1
    {
      var target := TileTarget(data, itemId);
      if target.Some? {
        effects := [Navigate(target.value)];
      } else {
        effects := [];
      }
    }
  }
}
